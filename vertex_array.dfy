/**
 * `OpenGL::CreateVertexArrayObject`: generates a vertex array object and
 * records, for every vertex buffer in order, the attribute layouts the
 * shaders will read, with the stride, byte offsets and attribute indices
 * computed from the buffer layouts.
 */
module VertexArray {
  import opened GL

  /** One attribute type of a buffer layout. */
  datatype AttributeType = AttributeType(
    glType: nat,
    componentCount: nat,
    normalize: bool,
    intAttribute: bool,
    divisor: nat,
    sizeBytes: nat)

  /** `Attribute::None`, a placeholder that takes no attribute slot. */
  const None := AttributeType(0, 0, false, false, 0, 0)

  datatype BufferLayout = BufferLayout(startingByteOffset: nat, attributes: seq<AttributeType>)

  datatype VertexBuffer = VertexBuffer(buffer: Handle, layout: BufferLayout)

  /** One configured attribute slot: where the shader's attribute `index` reads from. */
  datatype Binding = Binding(buffer: Handle, index: nat, attribute: AttributeType, stride: nat, offset: nat)

  // ---------------------------------------------------------------------
  // The layout, stated declaratively
  // ---------------------------------------------------------------------

  /** Bytes per vertex: the sizes of all attributes of the layout, placeholders included. */
  function Stride(attrs: seq<AttributeType>): nat {
    if attrs == [] then 0 else Stride(attrs[..|attrs| - 1]) + attrs[|attrs| - 1].sizeBytes
  }

  /** The sizes of the attributes that are not placeholders. */
  function EnabledSize(attrs: seq<AttributeType>): nat {
    if attrs == [] then 0
    else EnabledSize(attrs[..|attrs| - 1]) + (if attrs[|attrs| - 1] == None then 0 else attrs[|attrs| - 1].sizeBytes)
  }

  /** How many attributes of the layout are not placeholders. */
  function EnabledCount(attrs: seq<AttributeType>): nat {
    if attrs == [] then 0
    else EnabledCount(attrs[..|attrs| - 1]) + (if attrs[|attrs| - 1] == None then 0 else 1)
  }

  /**
   * The slots configured for the attributes `attrs` of one buffer, the first
   * taking index `first`: each attribute that is not a placeholder gets the
   * next index and the offset just past the earlier ones.
   */
  function AttributePlan(buffer: Handle, attrs: seq<AttributeType>, first: nat, stride: nat, start: nat): (p: seq<Binding>)
    ensures |p| == EnabledCount(attrs)
  {
    if attrs == [] then []
    else
      var init := attrs[..|attrs| - 1];
      var last := attrs[|attrs| - 1];
      var p := AttributePlan(buffer, init, first, stride, start);
      if last == None then p
      else p + [Binding(buffer, first + |p|, last, stride, start + EnabledSize(init))]
  }

  /** The slots of one vertex buffer whose first attribute gets index `first`. */
  function BufferPlan(vb: VertexBuffer, first: nat): seq<Binding> {
    AttributePlan(vb.buffer, vb.layout.attributes, first, Stride(vb.layout.attributes), vb.layout.startingByteOffset)
  }

  /** The slots of a list of vertex buffers, indices running on from buffer to buffer. */
  function Plan(vbs: seq<VertexBuffer>): seq<Binding> {
    if vbs == [] then []
    else
      var p := Plan(vbs[..|vbs| - 1]);
      p + BufferPlan(vbs[|vbs| - 1], |p|)
  }

  /** The three calls that configure one slot: enable, attribute format, divisor. */
  function SlotEvents(b: Binding): seq<Event> {
    [ EnableAttribArray(b.index),
      if b.attribute.intAttribute
      then AttribIPointer(b.index, b.attribute.glType, b.attribute.componentCount, b.stride, b.offset)
      else AttribPointer(b.index, AttributeFormat(b.attribute.glType, b.attribute.componentCount, b.attribute.normalize), b.stride, b.offset),
      AttribDivisor(b.index, b.attribute.divisor) ]
  }

  function SlotsEvents(bs: seq<Binding>): seq<Event> {
    if bs == [] then [] else SlotsEvents(bs[..|bs| - 1]) + SlotEvents(bs[|bs| - 1])
  }

  /** For each buffer: bind it as the array buffer, then configure its slots. */
  function BuffersEvents(vbs: seq<VertexBuffer>): seq<Event> {
    if vbs == [] then []
    else
      var init := vbs[..|vbs| - 1];
      BuffersEvents(init) + [BindArrayBuffer(vbs[|vbs| - 1].buffer)] + SlotsEvents(BufferPlan(vbs[|vbs| - 1], |Plan(init)|))
  }

  /** The whole call sequence of `CreateVertexArrayObject` once `vao` is generated. */
  function VaoEvents(vao: Handle, vbs: seq<VertexBuffer>, indexBuffer: Handle): seq<Event> {
    [BindVertexArray(vao)] + BuffersEvents(vbs)
    + (if indexBuffer != 0 then [BindIndexBuffer(indexBuffer)] else [])
    + [BindVertexArray(0)]
  }

  // ---------------------------------------------------------------------
  // Properties of the layout
  // ---------------------------------------------------------------------

  /** Attribute indices run 0, 1, 2, ... across all buffers in list order. */
  lemma {:induction false} PlanIndices(vbs: seq<VertexBuffer>)
    ensures forall k :: 0 <= k < |Plan(vbs)| ==> Plan(vbs)[k].index == k
  {
    if vbs != [] {
      var init := vbs[..|vbs| - 1];
      var last := vbs[|vbs| - 1];
      PlanIndices(init);
      var p := Plan(init);
      var attrs := last.layout.attributes;
      AttributePlanIndices(last.buffer, attrs, |p|, Stride(attrs), last.layout.startingByteOffset);
    }
  }

  lemma {:induction false} AttributePlanIndices(buffer: Handle, attrs: seq<AttributeType>, first: nat, stride: nat, start: nat)
    ensures forall k :: 0 <= k < |AttributePlan(buffer, attrs, first, stride, start)| ==>
              AttributePlan(buffer, attrs, first, stride, start)[k].index == first + k
  {
    if attrs != [] {
      AttributePlanIndices(buffer, attrs[..|attrs| - 1], first, stride, start);
    }
  }

  /**
   * Within one buffer no slot is a placeholder, every slot has the stride of
   * the whole layout, the first offset is the buffer's starting offset and
   * each later offset lies just past the previous attribute.
   */
  lemma {:induction false} AttributePlanOffsets(buffer: Handle, attrs: seq<AttributeType>, first: nat, stride: nat, start: nat)
    ensures var p := AttributePlan(buffer, attrs, first, stride, start);
            && (forall k :: 0 <= k < |p| ==> p[k].attribute != None && p[k].stride == stride && p[k].buffer == buffer)
            && (|p| > 0 ==> p[0].offset == start)
            && (forall k :: 0 <= k < |p| - 1 ==> p[k + 1].offset == p[k].offset + p[k].attribute.sizeBytes)
            && (|p| > 0 ==> p[|p| - 1].offset + p[|p| - 1].attribute.sizeBytes == start + EnabledSize(attrs))
  {
    if attrs != [] {
      AttributePlanOffsets(buffer, attrs[..|attrs| - 1], first, stride, start);
      NoSlotNoSize(attrs[..|attrs| - 1]);
    }
  }

  /** A layout made only of placeholders contributes no bytes of offset. */
  lemma {:induction false} NoSlotNoSize(attrs: seq<AttributeType>)
    ensures EnabledCount(attrs) == 0 ==> EnabledSize(attrs) == 0
  {
    if attrs != [] {
      NoSlotNoSize(attrs[..|attrs| - 1]);
    }
  }

  /** Each buffer's slots start at that buffer's own starting offset and use its own stride. */
  lemma BufferPlanRestarts(vb: VertexBuffer, first: nat)
    ensures var p := BufferPlan(vb, first);
            && |p| == EnabledCount(vb.layout.attributes)
            && (|p| > 0 ==> p[0].offset == vb.layout.startingByteOffset)
            && (forall k :: 0 <= k < |p| ==> p[k].stride == Stride(vb.layout.attributes))
  {
    var attrs := vb.layout.attributes;
    AttributePlanOffsets(vb.buffer, attrs, first, Stride(attrs), vb.layout.startingByteOffset);
  }

  /** A placeholder occupies no slot and no bytes of offset, but its size counts toward the stride. */
  lemma PlaceholderSkipped(buffer: Handle, attrs: seq<AttributeType>, first: nat, stride: nat, start: nat)
    ensures AttributePlan(buffer, attrs + [None], first, stride, start) == AttributePlan(buffer, attrs, first, stride, start)
    ensures EnabledSize(attrs + [None]) == EnabledSize(attrs)
    ensures Stride(attrs + [None]) == Stride(attrs) + None.sizeBytes
  {
    assert (attrs + [None])[..|attrs|] == attrs;
  }

  // ---------------------------------------------------------------------
  // The procedure
  // ---------------------------------------------------------------------

  /** One more attribute extends the plan by one slot, or by none for a placeholder. */
  lemma AttributePlanStep(buffer: Handle, attrs: seq<AttributeType>, j: nat, first: nat, stride: nat, start: nat)
    requires j < |attrs|
    ensures var p := AttributePlan(buffer, attrs[..j], first, stride, start);
            && EnabledCount(attrs[..j + 1]) == EnabledCount(attrs[..j]) + (if attrs[j] == None then 0 else 1)
            && EnabledSize(attrs[..j + 1]) == EnabledSize(attrs[..j]) + (if attrs[j] == None then 0 else attrs[j].sizeBytes)
            && SlotsEvents(AttributePlan(buffer, attrs[..j + 1], first, stride, start))
               == if attrs[j] == None then SlotsEvents(p)
                  else SlotsEvents(p) + SlotEvents(Binding(buffer, first + |p|, attrs[j], stride, start + EnabledSize(attrs[..j])))
  {
    var p := AttributePlan(buffer, attrs[..j], first, stride, start);
    assert attrs[..j + 1][..j] == attrs[..j];
    if attrs[j] != None {
      var b := Binding(buffer, first + |p|, attrs[j], stride, start + EnabledSize(attrs[..j]));
      assert (p + [b])[..|p|] == p;
    }
  }

  /** One more buffer extends the plan and the calls by that buffer's. */
  lemma BuffersStep(vbs: seq<VertexBuffer>, i: nat)
    requires i < |vbs|
    ensures |Plan(vbs[..i + 1])| == |Plan(vbs[..i])| + EnabledCount(vbs[i].layout.attributes)
    ensures BuffersEvents(vbs[..i + 1])
            == BuffersEvents(vbs[..i]) + [BindArrayBuffer(vbs[i].buffer)]
               + SlotsEvents(AttributePlan(vbs[i].buffer, vbs[i].layout.attributes, |Plan(vbs[..i])|,
                                           Stride(vbs[i].layout.attributes), vbs[i].layout.startingByteOffset))
  {
    assert vbs[..i + 1][..i] == vbs[..i];
  }

  /** The stride loop: the sum of the sizes of all attributes of the layout. */
  method ComputeStride(attrs: seq<AttributeType>) returns (stride: nat)
    ensures stride == Stride(attrs)
  {
    stride := 0;
    var j := 0;
    while j < |attrs|
      invariant 0 <= j <= |attrs|
      invariant stride == Stride(attrs[..j])
    {
      assert attrs[..j + 1][..j] == attrs[..j];
      stride := stride + attrs[j].sizeBytes;
      j := j + 1;
    }
    assert attrs[..j] == attrs;
  }

  /**
   * The calls for one attribute that is not a placeholder: enable its index,
   * point it at the buffer with the integer or the float entry point, set
   * its divisor.
   */
  method ConfigureSlot(gl: Device, slot: Binding)
    requires gl.Valid()
    modifies gl
    ensures gl.Valid() && gl.SettingsUnchanged() && gl.live == old(gl.live)
    ensures gl.log == old(gl.log) + SlotEvents(slot)
  {
    var a := slot.attribute;
    gl.Issue(EnableAttribArray(slot.index));
    if a.intAttribute {
      gl.Issue(AttribIPointer(slot.index, a.glType, a.componentCount, slot.stride, slot.offset));
    } else {
      gl.Issue(AttribPointer(slot.index, AttributeFormat(a.glType, a.componentCount, a.normalize), slot.stride, slot.offset));
    }
    gl.Issue(AttribDivisor(slot.index, a.divisor));
  }

  /**
   * The attribute loop of one buffer: configures its slots from index
   * `first` and returns the index the next buffer starts at.
   */
  method ConfigureAttributes(gl: Device, vb: VertexBuffer, first: nat, stride: nat) returns (attributeIndex: nat)
    requires gl.Valid()
    modifies gl
    ensures gl.Valid() && gl.SettingsUnchanged() && gl.live == old(gl.live)
    ensures attributeIndex == first + EnabledCount(vb.layout.attributes)
    ensures gl.log == old(gl.log) + SlotsEvents(AttributePlan(vb.buffer, vb.layout.attributes, first, stride, vb.layout.startingByteOffset))
  {
    var attrs := vb.layout.attributes;
    attributeIndex := first;
    var offset := vb.layout.startingByteOffset;
    var j := 0;
    while j < |attrs|
      invariant 0 <= j <= |attrs|
      invariant gl.Valid() && gl.SettingsUnchanged() && gl.live == old(gl.live)
      invariant attributeIndex == first + EnabledCount(attrs[..j])
      invariant offset == vb.layout.startingByteOffset + EnabledSize(attrs[..j])
      invariant gl.log == old(gl.log) + SlotsEvents(AttributePlan(vb.buffer, attrs[..j], first, stride, vb.layout.startingByteOffset))
    {
      var a := attrs[j];
      ghost var plan := AttributePlan(vb.buffer, attrs[..j], first, stride, vb.layout.startingByteOffset);
      AttributePlanStep(vb.buffer, attrs, j, first, stride, vb.layout.startingByteOffset);
      if a == None {
        j := j + 1;
        continue;
      }
      var slot := Binding(vb.buffer, attributeIndex, a, stride, offset);
      ConfigureSlot(gl, slot);
      AppendAssoc(old(gl.log), SlotsEvents(plan), SlotEvents(slot));
      assert slot == Binding(vb.buffer, first + |plan|, a, stride, vb.layout.startingByteOffset + EnabledSize(attrs[..j]));
      assert gl.log == old(gl.log) + (SlotsEvents(plan) + SlotEvents(slot));
      attributeIndex := attributeIndex + 1;
      offset := offset + a.sizeBytes;
      j := j + 1;
    }
    assert attrs[..j] == attrs;
  }

  /** The body of the buffer loop: bind the buffer, compute its stride, configure its slots. */
  method ConfigureBuffer(gl: Device, vb: VertexBuffer, first: nat) returns (next: nat)
    requires gl.Valid()
    modifies gl
    ensures gl.Valid() && gl.SettingsUnchanged() && gl.live == old(gl.live)
    ensures next == first + EnabledCount(vb.layout.attributes)
    ensures gl.log == old(gl.log) + ([BindArrayBuffer(vb.buffer)] + SlotsEvents(BufferPlan(vb, first)))
  {
    gl.Issue(BindArrayBuffer(vb.buffer));
    var stride := ComputeStride(vb.layout.attributes);
    next := ConfigureAttributes(gl, vb, first, stride);
  }

  /** The buffer loop: every buffer in list order, attribute indices running on. */
  method ConfigureBuffers(gl: Device, vertices: seq<VertexBuffer>)
    requires gl.Valid()
    modifies gl
    ensures gl.Valid() && gl.SettingsUnchanged() && gl.live == old(gl.live)
    ensures gl.log == old(gl.log) + BuffersEvents(vertices)
  {
    var attributeIndex: nat := 0;
    var i := 0;
    while i < |vertices|
      invariant 0 <= i <= |vertices|
      invariant gl.Valid() && gl.SettingsUnchanged() && gl.live == old(gl.live)
      invariant attributeIndex == |Plan(vertices[..i])|
      invariant gl.log == old(gl.log) + BuffersEvents(vertices[..i])
    {
      attributeIndex := ConfigureBuffer(gl, vertices[i], attributeIndex);
      BuffersStep(vertices, i);
      i := i + 1;
    }
    assert vertices[..i] == vertices;
  }

  /**
   * `CreateVertexArrayObject(vertices, index_buffer)`: a new vertex array
   * object, configured with exactly the calls `VaoEvents` lists.
   */
  method CreateVertexArrayObject(gl: Device, vertices: seq<VertexBuffer>, indexBuffer: Handle) returns (vao: Handle)
    requires gl.Valid()
    modifies gl
    ensures gl.Valid() && gl.SettingsUnchanged()
    ensures vao != 0 && vao !in old(gl.live) && gl.live == old(gl.live) + {vao}
    ensures gl.log == old(gl.log) + [Created(VertexArrayObject, vao)] + VaoEvents(vao, vertices, indexBuffer)
  {
    vao := gl.Gen(VertexArrayObject);
    gl.Issue(BindVertexArray(vao));
    ConfigureBuffers(gl, vertices);
    if indexBuffer != 0 {
      gl.Issue(BindIndexBuffer(indexBuffer));
    }
    gl.Issue(BindVertexArray(0));
  }

  /** The single-buffer overload: the same calls as the list holding only that buffer. */
  method CreateVertexArrayObjectSingle(gl: Device, vertices: VertexBuffer, indexBuffer: Handle) returns (vao: Handle)
    requires gl.Valid()
    modifies gl
    ensures gl.Valid() && gl.SettingsUnchanged()
    ensures vao != 0 && vao !in old(gl.live) && gl.live == old(gl.live) + {vao}
    ensures gl.log == old(gl.log) + [Created(VertexArrayObject, vao)] + VaoEvents(vao, [vertices], indexBuffer)
  {
    vao := CreateVertexArrayObject(gl, [vertices], indexBuffer);
  }

  /** The calls for a list of one buffer: bind it, then configure its slots from index 0. */
  lemma SingleBufferEvents(vb: VertexBuffer)
    ensures BuffersEvents([vb]) == [BindArrayBuffer(vb.buffer)] + SlotsEvents(BufferPlan(vb, 0))
  {
    assert [vb][..0] == [];
  }
}
