/**
 * `CS200::ImmediateRenderer2D`: the engine's 2D renderer. It owns seven GPU
 * objects and two shader programs, uploads the camera matrix once per scene
 * and issues one draw call per textured quad or signed-distance-field shape.
 */
module ImmediateRenderer {
  import opened Vec2
  import opened GL

  /** `SDFShape`: which distance function the SDF shader evaluates. */
  datatype SdfShape = Circle | Rectangle

  function ShapeName(shape: SdfShape): string {
    match shape
    case Circle => "Circle"
    case Rectangle => "Rectangle"
  }

  /**
   * What `Renderer2DUtils::CalculateSDFTransform` returns for a transform and
   * a line width: a quad transform (nine floats), the quad size and the
   * world size (two floats each). The helper is outside this model, so the
   * floats are symbolic.
   */
  datatype SdfTransform = SdfTransform(quadTransform: seq<Scalar>, quadSize: seq<Scalar>, worldSize: seq<Scalar>)

  function SdfTransformOf(m: Mat3, lineWidth: real): (t: SdfTransform)
    ensures |t.quadTransform| == 9 && |t.quadSize| == 2 && |t.worldSize| == 2
  {
    SdfTransform(
      seq(9, k requires 0 <= k < 9 => Derived("QuadTransform", m, lineWidth, k)),
      seq(2, k requires 0 <= k < 2 => Derived("QuadSize", m, lineWidth, k)),
      seq(2, k requires 0 <= k < 2 => Derived("WorldSize", m, lineWidth, k)))
  }

  /** The value of a default-constructed `SDFTransform`. */
  const NoSdfTransform := SdfTransform([], [], [])

  // ---------------------------------------------------------------------
  // Texture coordinates
  // ---------------------------------------------------------------------

  /**
   * The `uTextureTransform` matrix of `DrawQuad`, column-major: scale
   * `tr - bl` on the diagonal and offset `bl` in the last column.
   */
  function TextureTransform(bl: Vec2, tr: Vec2): (m: seq<real>)
    ensures |m| == 9
  {
    var scale := Sub(tr, bl);
    [ scale.x, 0.0, 0.0,
      0.0, scale.y, 0.0,
      bl.x, bl.y, 1.0 ]
  }

  /** A column-major 3x3 matrix applied to the homogeneous point `(u, v, 1)`. */
  function MapPoint(m: seq<real>, u: real, v: real): Vec2
    requires |m| == 9
  {
    Vec2(m[0] * u + m[3] * v + m[6], m[1] * u + m[4] * v + m[7])
  }

  /**
   * The texture transform maps the unit square of the quad's coordinates
   * onto the rectangle from `bl` to `tr`: (0,0) goes to `bl`, (1,1) to `tr`,
   * and every point is interpolated linearly between them.
   */
  lemma TextureTransformCorners(bl: Vec2, tr: Vec2, u: real, v: real)
    ensures MapPoint(TextureTransform(bl, tr), 0.0, 0.0) == bl
    ensures MapPoint(TextureTransform(bl, tr), 1.0, 1.0) == tr
    ensures MapPoint(TextureTransform(bl, tr), u, v) == Vec2(bl.x + u * (tr.x - bl.x), bl.y + v * (tr.y - bl.y))
  {
  }

  /** A sequence of reals as GPU floats. */
  function Lits(xs: seq<real>): (s: seq<Scalar>)
    ensures |s| == |xs| && forall k :: 0 <= k < |xs| ==> s[k] == Lit(xs[k])
  {
    seq(|xs|, k requires 0 <= k < |xs| => Lit(xs[k]))
  }

  // ---------------------------------------------------------------------
  // Call sequences
  // ---------------------------------------------------------------------

  /** The calls of `BeginScene(vp)`: the matrix, as three padded columns, into the camera uniform buffer. */
  function SceneEvents(cameraUniformBuffer: Handle, vp: Mat3): seq<Event> {
    [BindUniformBuffer(cameraUniformBuffer), BufferSubData(cameraUniformBuffer, Std140Columns(vp)), BindUniformBuffer(0)]
  }

  /** The uniform uploads of `DrawQuad`; each happens only when the quad shader declares the uniform. */
  function QuadUniforms(shader: CompiledShader, transform: Mat3, bl: Vec2, tr: Vec2, tint: Rgba): seq<Event> {
    UniformEvents(shader, "uModel", Floats(ColumnMajor9(transform)))
    + UniformEvents(shader, "uTextureTransform", Floats(Lits(TextureTransform(bl, tr))))
    + UniformEvents(shader, "uTintColor", ColorValue(tint))
    + UniformEvents(shader, "uTex2d", IntValue(0))
  }

  /** The calls of `DrawQuad`. */
  function QuadEvents(shader: CompiledShader, quadVertexArray: Handle, transform: Mat3, texture: Handle,
                      bl: Vec2, tr: Vec2, tint: Rgba): seq<Event>
  {
    [UseProgram(shader.program)]
    + QuadUniforms(shader, transform, bl, tr, tint)
    + [ActiveTexture(0), BindTexture(texture), BindVertexArray(quadVertexArray), DrawElements(6), BindVertexArray(0)]
  }

  /** The uniform uploads of `DrawSDF`; each happens only when the SDF shader declares the uniform. */
  function SdfUniforms(sdfShader: CompiledShader, transform: Mat3, fill: Rgba, line: Rgba, lineWidth: real, shape: SdfShape): seq<Event> {
    var t := SdfTransformOf(transform, lineWidth);
    UniformEvents(sdfShader, "uModel", Floats(t.quadTransform))
    + UniformEvents(sdfShader, "quadsize", Floats(t.quadSize))
    + UniformEvents(sdfShader, "size", Floats(t.worldSize))
    + UniformEvents(sdfShader, "fill_color", ColorValue(fill))
    + UniformEvents(sdfShader, "outline_color", ColorValue(line))
    + UniformEvents(sdfShader, "shapetype", EnumValue(ShapeName(shape)))
    + UniformEvents(sdfShader, "uLineWidth", FloatValue(lineWidth))
  }

  /** The calls of `DrawSDF`. */
  function SdfEvents(sdfShader: CompiledShader, sdfVertexArray: Handle, transform: Mat3, fill: Rgba, line: Rgba,
                     lineWidth: real, shape: SdfShape): seq<Event>
  {
    [UseProgram(sdfShader.program)]
    + SdfUniforms(sdfShader, transform, fill, line, lineWidth, shape)
    + [BindVertexArray(sdfVertexArray), DrawElements(6), BindVertexArray(0)]
  }

  /** A shader with no active uniforms still gets its program bound and its quad drawn. */
  lemma QuadEventsWithoutUniforms(shader: CompiledShader, vao: Handle, transform: Mat3, texture: Handle, bl: Vec2, tr: Vec2, tint: Rgba)
    requires shader.uniformLocations == map[]
    ensures QuadEvents(shader, vao, transform, texture, bl, tr, tint)
            == [UseProgram(shader.program), ActiveTexture(0), BindTexture(texture), BindVertexArray(vao), DrawElements(6), BindVertexArray(0)]
  {
  }

  /** Two sequences that differ only in equally long middle parts are equal exactly when those parts are. */
  lemma MiddleDiffers<T>(p: seq<T>, a: seq<T>, x: seq<T>, y: seq<T>, u: seq<T>, tail: seq<T>)
    requires |x| == |y|
    ensures p + (a + x + u) + tail == p + (a + y + u) + tail <==> x == y
  {
    if x != y {
      var k :| 0 <= k < |x| && x[k] != y[k];
      var i := |p| + |a| + k;
      assert (p + (a + x + u) + tail)[i] == x[k];
      assert (p + (a + y + u) + tail)[i] == y[k];
    }
  }

  /** The shape kind reaches the shader exactly when it declares `shapetype`. */
  lemma ShapeReachesShader(sdfShader: CompiledShader, vao: Handle, transform: Mat3, fill: Rgba, line: Rgba, w: real)
    ensures "shapetype" in sdfShader.uniformLocations
            <==> SdfEvents(sdfShader, vao, transform, fill, line, w, Circle) != SdfEvents(sdfShader, vao, transform, fill, line, w, Rectangle)
  {
    var t := SdfTransformOf(transform, w);
    var p := [UseProgram(sdfShader.program)];
    var a := UniformEvents(sdfShader, "uModel", Floats(t.quadTransform))
             + UniformEvents(sdfShader, "quadsize", Floats(t.quadSize))
             + UniformEvents(sdfShader, "size", Floats(t.worldSize))
             + UniformEvents(sdfShader, "fill_color", ColorValue(fill))
             + UniformEvents(sdfShader, "outline_color", ColorValue(line));
    var u := UniformEvents(sdfShader, "uLineWidth", FloatValue(w));
    var tail := [BindVertexArray(vao), DrawElements(6), BindVertexArray(0)];
    var circle := UniformEvents(sdfShader, "shapetype", EnumValue(ShapeName(Circle)));
    var rectangle := UniformEvents(sdfShader, "shapetype", EnumValue(ShapeName(Rectangle)));
    assert SdfEvents(sdfShader, vao, transform, fill, line, w, Circle) == p + (a + circle + u) + tail;
    assert SdfEvents(sdfShader, vao, transform, fill, line, w, Rectangle) == p + (a + rectangle + u) + tail;
    MiddleDiffers(p, a, circle, rectangle, u, tail);
    if "shapetype" in sdfShader.uniformLocations {
      assert circle[0] != rectangle[0];
    }
  }

  // ---------------------------------------------------------------------
  // Ownership
  // ---------------------------------------------------------------------

  /** The ownership-relevant state of a renderer. */
  datatype Handles = Handles(
    quadVertexArray: Handle, quadVertexBuffer: Handle, quadIndexBuffer: Handle, cameraUniformBuffer: Handle,
    sdfVertexArray: Handle, sdfBuffer: Handle, sdfIndex: Handle,
    shader: CompiledShader, sdfShader: CompiledShader, viewProjection: Mat3)

  /** A renderer that owns nothing. */
  const Empty := Handles(0, 0, 0, 0, 0, 0, 0, NoShader, NoShader, Identity)

  /** The deletion of one object, skipped for the name 0. */
  function Drop(kind: ObjectKind, h: Handle): (es: seq<Event>)
    ensures es == [] <==> h == 0
  {
    if h != 0 then [Deleted(kind, h)] else []
  }

  /** The objects a renderer's `Shutdown` would delete, in its order. */
  function ReleaseEvents(h: Handles): seq<Event> {
    QuadReleaseEvents(h) + SdfReleaseEvents(h)
  }

  /** The first four deletions of `Shutdown`: the quad objects and the camera buffer. */
  function QuadReleaseEvents(h: Handles): seq<Event> {
    Drop(VertexArrayObject, h.quadVertexArray) + Drop(BufferObject, h.quadVertexBuffer)
    + Drop(BufferObject, h.quadIndexBuffer) + Drop(BufferObject, h.cameraUniformBuffer)
  }

  /** The last three deletions of `Shutdown`: the SDF objects. */
  function SdfReleaseEvents(h: Handles): seq<Event> {
    Drop(VertexArrayObject, h.sdfVertexArray) + Drop(BufferObject, h.sdfBuffer) + Drop(BufferObject, h.sdfIndex)
  }

  /** The seven object names a renderer stores, zero or not. */
  function Names(h: Handles): seq<Handle> {
    [h.quadVertexArray, h.quadVertexBuffer, h.quadIndexBuffer, h.cameraUniformBuffer,
     h.sdfVertexArray, h.sdfBuffer, h.sdfIndex]
  }

  /** The non-zero object names a renderer holds. */
  function Owned(h: Handles): set<Handle> {
    set x | x in Names(h) && x != 0
  }

  /** A renderer holds no object exactly when its `Shutdown` would delete no object. */
  lemma {:induction false} NothingToRelease(h: Handles)
    ensures Owned(h) == {} <==> ReleaseEvents(h) == []
  {
    var n := Names(h);
    if ReleaseEvents(h) == [] {
      assert forall i :: 0 <= i < 7 ==> n[i] == 0;
      assert forall x :: x in Owned(h) ==> x in n && x != 0;
    } else {
      if h.quadVertexArray != 0 {
        assert n[0] in Owned(h);
      } else if h.quadVertexBuffer != 0 {
        assert n[1] in Owned(h);
      } else if h.quadIndexBuffer != 0 {
        assert n[2] in Owned(h);
      } else if h.cameraUniformBuffer != 0 {
        assert n[3] in Owned(h);
      } else if h.sdfVertexArray != 0 {
        assert n[4] in Owned(h);
      } else if h.sdfBuffer != 0 {
        assert n[5] in Owned(h);
      } else {
        assert n[6] in Owned(h);
      }
    }
  }

  /** `Shutdown` on a state: every object name zeroed, both shaders reset, the camera kept. */
  function ShutDown(h: Handles): (r: Handles)
    ensures Owned(r) == {} && ReleaseEvents(r) == []
    ensures r.viewProjection == h.viewProjection
  {
    Handles(0, 0, 0, 0, 0, 0, 0, NoShader, NoShader, h.viewProjection)
  }

  /**
   * The move constructor as written: every handle and both shaders are copied
   * into the new renderer; the source's quad objects, camera buffer, SDF vertex
   * buffer and shaders are reset, but its SDF vertex array and SDF index
   * buffer are not.
   */
  function MoveConstructAsWritten(src: Handles): (Handles, Handles) {
    (src,
     Handles(0, 0, 0, 0, src.sdfVertexArray, 0, src.sdfIndex, NoShader, NoShader, Identity))
  }

  /**
   * As written, the new renderer and the moved-from one both hold the SDF
   * vertex array and the SDF index buffer.
   */
  lemma {:induction false} MoveConstructSharesSdfObjects(src: Handles)
    requires src.sdfVertexArray != 0 && src.sdfIndex != 0
    ensures var (dst, rest) := MoveConstructAsWritten(src);
            && src.sdfVertexArray in Owned(dst) && src.sdfVertexArray in Owned(rest)
            && src.sdfIndex in Owned(dst) && src.sdfIndex in Owned(rest)
  {
    var (dst, rest) := MoveConstructAsWritten(src);
    assert src.sdfVertexArray == Names(dst)[4] == Names(rest)[4];
    assert src.sdfIndex == Names(dst)[6] == Names(rest)[6];
  }

  /**
   * As written, the destructor of the new renderer and the destructor of the
   * moved-from one both delete the SDF vertex array and the SDF index buffer.
   */
  lemma {:induction false} MoveConstructDoubleRelease(src: Handles)
    requires src.sdfVertexArray != 0 && src.sdfIndex != 0
    ensures var (dst, rest) := MoveConstructAsWritten(src);
            && Deleted(VertexArrayObject, src.sdfVertexArray) in ReleaseEvents(dst)
            && Deleted(VertexArrayObject, src.sdfVertexArray) in ReleaseEvents(rest)
            && Deleted(BufferObject, src.sdfIndex) in ReleaseEvents(dst)
            && Deleted(BufferObject, src.sdfIndex) in ReleaseEvents(rest)
  {
    var (dst, rest) := MoveConstructAsWritten(src);
    var v := Deleted(VertexArrayObject, src.sdfVertexArray);
    var i := Deleted(BufferObject, src.sdfIndex);
    assert SdfReleaseEvents(dst) == [v] + Drop(BufferObject, src.sdfBuffer) + [i];
    assert v in SdfReleaseEvents(dst) && i in SdfReleaseEvents(dst);
    assert QuadReleaseEvents(rest) == [];
    assert ReleaseEvents(rest) == [v, i];
  }

  /** The move constructor with every handle transferred: the source is left empty. */
  function MoveConstruct(src: Handles): (r: (Handles, Handles))
    ensures r.0 == src
    ensures Owned(r.1) == {} && ReleaseEvents(r.1) == []
    ensures Owned(r.0) * Owned(r.1) == {}
  {
    (src, Empty)
  }

  /**
   * Move assignment as written, for distinct renderers: the target is shut
   * down, then every field but the SDF vertex array and the SDF index buffer
   * is swapped with the source.
   */
  function MoveAssignAsWritten(dst: Handles, src: Handles): (Handles, Handles) {
    var d := ShutDown(dst);
    (Handles(src.quadVertexArray, src.quadVertexBuffer, src.quadIndexBuffer, src.cameraUniformBuffer,
             d.sdfVertexArray, src.sdfBuffer, d.sdfIndex, src.shader, src.sdfShader, src.viewProjection),
     Handles(d.quadVertexArray, d.quadVertexBuffer, d.quadIndexBuffer, d.cameraUniformBuffer,
             src.sdfVertexArray, d.sdfBuffer, src.sdfIndex, d.shader, d.sdfShader, d.viewProjection))
  }

  /**
   * As written, the target of a move assignment ends with SDF vertex array 0,
   * so its next `DrawSDF` binds no vertex array, while the moved-from source
   * keeps the vertex array it can no longer use.
   */
  lemma MoveAssignLosesSdfVertexArray(dst: Handles, src: Handles)
    requires src.sdfVertexArray != 0
    ensures var (d, s) := MoveAssignAsWritten(dst, src);
            && d.sdfVertexArray == 0
            && s.sdfVertexArray == src.sdfVertexArray
            && src.sdfVertexArray in Owned(s)
  {
    var (d, s) := MoveAssignAsWritten(dst, src);
    assert src.sdfVertexArray == Names(s)[4];
  }

  /** Move assignment with every field swapped after the shutdown. */
  function MoveAssign(dst: Handles, src: Handles): (r: (Handles, Handles))
    ensures r.0 == src
    ensures Owned(r.1) == {} && ReleaseEvents(r.1) == []
  {
    (src, ShutDown(dst))
  }

  // ---------------------------------------------------------------------
  // The renderer object
  // ---------------------------------------------------------------------

  /** The calls of `Init`, in its order: the SDF objects, the quad objects, then the camera buffer. */
  function InitEvents(h: Handles): seq<Event> {
    SdfObjectEvents(h.sdfBuffer, h.sdfIndex, h.sdfVertexArray)
    + QuadObjectEvents(h.quadVertexBuffer, h.quadIndexBuffer, h.quadVertexArray)
    + CameraBufferEvents(h.cameraUniformBuffer, h.shader.program, h.sdfShader.program)
  }

  /**
   * The SDF unit square: vertex buffer, index buffer, then a vertex array
   * whose attribute 0 is two floats with stride 8 and which keeps the index
   * buffer bound. `glBufferData` is not logged.
   */
  function SdfObjectEvents(vbo: Handle, ebo: Handle, vao: Handle): seq<Event> {
    [ Created(BufferObject, vbo), BindArrayBuffer(vbo),
      Created(BufferObject, ebo), BindIndexBuffer(ebo),
      Created(VertexArrayObject, vao), BindVertexArray(vao),
      BindArrayBuffer(vbo), EnableAttribArray(0), AttribPointer(0, Float2, 8, 0), BindArrayBuffer(0),
      BindIndexBuffer(ebo), BindVertexArray(0) ]
  }

  /**
   * The textured quad: vertex buffer, index buffer, then a vertex array with
   * the position at offset 0 and the texture coordinate at offset 8 of a
   * 16-byte vertex, keeping the index buffer bound.
   */
  function QuadObjectEvents(vbo: Handle, ebo: Handle, vao: Handle): seq<Event> {
    [ Created(BufferObject, vbo), BindArrayBuffer(vbo),
      Created(BufferObject, ebo), BindIndexBuffer(ebo),
      Created(VertexArrayObject, vao), BindVertexArray(vao),
      BindArrayBuffer(vbo), EnableAttribArray(0), AttribPointer(0, Float2, 16, 0),
      EnableAttribArray(1), AttribPointer(1, Float2, 16, 8),
      BindIndexBuffer(ebo), BindVertexArray(0) ]
  }

  /** The camera buffer: bound to uniform binding 0 and to both shaders' "Camera" block, then unbound. */
  function CameraBufferEvents(ubo: Handle, quadProgram: Handle, sdfProgram: Handle): seq<Event> {
    [ Created(BufferObject, ubo), BindUniformBuffer(ubo), BindBufferBase(0, ubo),
      BindUniformBlock(quadProgram, "Camera", 0, ubo), BindUniformBlock(sdfProgram, "Camera", 0, ubo),
      BindUniformBuffer(0) ]
  }

  /** All seven names are non-zero, pairwise distinct and not in `before`. */
  predicate FreshNames(h: Handles, before: set<Handle>) {
    (forall i :: 0 <= i < 7 ==> Names(h)[i] != 0 && Names(h)[i] !in before)
    && (forall i, j :: 0 <= i < j < 7 ==> Names(h)[i] != Names(h)[j])
  }

  /**
   * Three creation steps, each adding names not live before it, leave every
   * name fresh and distinct, and add exactly the owned names.
   */
  lemma InitNames(h: Handles, live0: set<Handle>, live1: set<Handle>, live2: set<Handle>, live3: set<Handle>)
    requires h.sdfBuffer != 0 && h.sdfIndex != 0 && h.sdfVertexArray != 0
    requires h.sdfBuffer !in live0 && h.sdfIndex !in live0 && h.sdfVertexArray !in live0
    requires h.sdfBuffer != h.sdfIndex && h.sdfBuffer != h.sdfVertexArray && h.sdfIndex != h.sdfVertexArray
    requires live1 == live0 + {h.sdfBuffer, h.sdfIndex, h.sdfVertexArray}
    requires h.quadVertexBuffer != 0 && h.quadIndexBuffer != 0 && h.quadVertexArray != 0
    requires h.quadVertexBuffer !in live1 && h.quadIndexBuffer !in live1 && h.quadVertexArray !in live1
    requires h.quadVertexBuffer != h.quadIndexBuffer && h.quadVertexBuffer != h.quadVertexArray
    requires h.quadIndexBuffer != h.quadVertexArray
    requires live2 == live1 + {h.quadVertexBuffer, h.quadIndexBuffer, h.quadVertexArray}
    requires h.cameraUniformBuffer != 0 && h.cameraUniformBuffer !in live2
    requires live3 == live2 + {h.cameraUniformBuffer}
    ensures FreshNames(h, live0)
    ensures live3 == live0 + Owned(h)
  {
    OwnedOfNonZero(h);
  }

  /** When no name is zero, a renderer owns exactly its seven names. */
  lemma OwnedOfNonZero(h: Handles)
    requires forall i :: 0 <= i < 7 ==> Names(h)[i] != 0
    ensures Owned(h) == {h.quadVertexArray, h.quadVertexBuffer, h.quadIndexBuffer, h.cameraUniformBuffer,
                         h.sdfVertexArray, h.sdfBuffer, h.sdfIndex}
  {
    assert Names(h)[0] != 0 && Names(h)[1] != 0 && Names(h)[2] != 0 && Names(h)[3] != 0;
    assert Names(h)[4] != 0 && Names(h)[5] != 0 && Names(h)[6] != 0;
  }

  /** Removing each stored name from a set without 0 removes exactly the owned ones. */
  lemma OwnedRemoved(h: Handles, live: set<Handle>)
    requires 0 !in live
    ensures live - {h.quadVertexArray} - {h.quadVertexBuffer} - {h.quadIndexBuffer} - {h.cameraUniformBuffer}
            - {h.sdfVertexArray} - {h.sdfBuffer} - {h.sdfIndex} == live - Owned(h)
  {
    var n := Names(h);
    forall x | x in live
      ensures x in Owned(h) <==> x in n
    {
    }
  }

  /** Deletes one object unless its name is 0; deleting the name 0 would change nothing. */
  method Release(gl: Device, kind: ObjectKind, h: Handle)
    requires gl.Valid()
    modifies gl
    ensures gl.Valid() && gl.SettingsUnchanged()
    ensures gl.live == old(gl.live) - {h}
    ensures gl.log == old(gl.log) + Drop(kind, h)
  {
    if h != 0 {
      gl.Delete(kind, h);
    }
  }

  /** Binds a vertex array, draws its six indices (two triangles) and unbinds it. */
  method DrawBoundQuad(gl: Device, vertexArray: Handle)
    requires gl.Valid()
    modifies gl
    ensures gl.Valid() && gl.live == old(gl.live) && gl.SettingsUnchanged()
    ensures gl.log == old(gl.log) + [BindVertexArray(vertexArray), DrawElements(6), BindVertexArray(0)]
  {
    gl.Issue(BindVertexArray(vertexArray));
    gl.Issue(DrawElements(6));
    gl.Issue(BindVertexArray(0));
  }

  /** Selects texture unit 0, binds `texture` to it and draws the quad of `vertexArray`. */
  method BindTextureAndDraw(gl: Device, texture: Handle, vertexArray: Handle)
    requires gl.Valid()
    modifies gl
    ensures gl.Valid() && gl.live == old(gl.live) && gl.SettingsUnchanged()
    ensures gl.log == old(gl.log) + [ActiveTexture(0), BindTexture(texture), BindVertexArray(vertexArray), DrawElements(6), BindVertexArray(0)]
  {
    gl.Issue(ActiveTexture(0));
    gl.Issue(BindTexture(texture));
    DrawBoundQuad(gl, vertexArray);
  }

  /** `glGenBuffers` for a vertex buffer, which is then bound as the array buffer. */
  method GenArrayBuffer(gl: Device) returns (h: Handle)
    requires gl.Valid()
    modifies gl
    ensures gl.Valid() && gl.SettingsUnchanged()
    ensures h != 0 && h !in old(gl.live) && gl.live == old(gl.live) + {h}
    ensures gl.log == old(gl.log) + [Created(BufferObject, h), BindArrayBuffer(h)]
  {
    h := gl.Gen(BufferObject);
    gl.Issue(BindArrayBuffer(h));
  }

  /** `glGenBuffers` for an index buffer, which is then bound as the element array buffer. */
  method GenIndexBuffer(gl: Device) returns (h: Handle)
    requires gl.Valid()
    modifies gl
    ensures gl.Valid() && gl.SettingsUnchanged()
    ensures h != 0 && h !in old(gl.live) && gl.live == old(gl.live) + {h}
    ensures gl.log == old(gl.log) + [Created(BufferObject, h), BindIndexBuffer(h)]
  {
    h := gl.Gen(BufferObject);
    gl.Issue(BindIndexBuffer(h));
  }

  /** `glGenVertexArrays`, the new vertex array then bound. */
  method GenVertexArray(gl: Device) returns (h: Handle)
    requires gl.Valid()
    modifies gl
    ensures gl.Valid() && gl.SettingsUnchanged()
    ensures h != 0 && h !in old(gl.live) && gl.live == old(gl.live) + {h}
    ensures gl.log == old(gl.log) + [Created(VertexArrayObject, h), BindVertexArray(h)]
  {
    h := gl.Gen(VertexArrayObject);
    gl.Issue(BindVertexArray(h));
  }

  /** The SDF vertex array's layout, recorded while it is bound: attribute 0 is two floats, stride 8. */
  method LayOutSdfVertexArray(gl: Device, vbo: Handle, ebo: Handle)
    requires gl.Valid()
    modifies gl
    ensures gl.Valid() && gl.SettingsUnchanged() && gl.live == old(gl.live)
    ensures gl.log == old(gl.log) + [ BindArrayBuffer(vbo), EnableAttribArray(0), AttribPointer(0, Float2, 8, 0),
                                      BindArrayBuffer(0), BindIndexBuffer(ebo), BindVertexArray(0) ]
  {
    gl.Issue(BindArrayBuffer(vbo));
    gl.Issue(EnableAttribArray(0));
    gl.Issue(AttribPointer(0, Float2, 8, 0));
    gl.Issue(BindArrayBuffer(0));
    gl.Issue(BindIndexBuffer(ebo));
    gl.Issue(BindVertexArray(0));
  }

  /** The quad vertex array's layout: position at offset 0 and texture coordinate at offset 8 of 16 bytes. */
  method LayOutQuadVertexArray(gl: Device, vbo: Handle, ebo: Handle)
    requires gl.Valid()
    modifies gl
    ensures gl.Valid() && gl.SettingsUnchanged() && gl.live == old(gl.live)
    ensures gl.log == old(gl.log) + [ BindArrayBuffer(vbo), EnableAttribArray(0), AttribPointer(0, Float2, 16, 0),
                                      EnableAttribArray(1), AttribPointer(1, Float2, 16, 8),
                                      BindIndexBuffer(ebo), BindVertexArray(0) ]
  {
    gl.Issue(BindArrayBuffer(vbo));
    gl.Issue(EnableAttribArray(0));
    gl.Issue(AttribPointer(0, Float2, 16, 0));
    gl.Issue(EnableAttribArray(1));
    gl.Issue(AttribPointer(1, Float2, 16, 8));
    gl.Issue(BindIndexBuffer(ebo));
    gl.Issue(BindVertexArray(0));
  }

  class Renderer2D {
    var quadVertexArray: Handle
    var quadVertexBuffer: Handle
    var quadIndexBuffer: Handle
    var cameraUniformBuffer: Handle
    var shader: CompiledShader
    var viewProjection: Mat3
    var sdfShader: CompiledShader
    var sdfVertexArray: Handle
    var sdfBuffer: Handle
    var sdfIndex: Handle
    var sdfTransform: SdfTransform

    function State(): Handles
      reads this
    {
      Handles(quadVertexArray, quadVertexBuffer, quadIndexBuffer, cameraUniformBuffer,
              sdfVertexArray, sdfBuffer, sdfIndex, shader, sdfShader, viewProjection)
    }

    /** A renderer before `Init`: no objects, no shaders. */
    constructor ()
      ensures State() == Empty && sdfTransform == NoSdfTransform
    {
      quadVertexArray, quadVertexBuffer, quadIndexBuffer, cameraUniformBuffer := 0, 0, 0, 0;
      sdfVertexArray, sdfBuffer, sdfIndex := 0, 0, 0;
      shader, sdfShader := NoShader, NoShader;
      viewProjection := Identity;
      sdfTransform := NoSdfTransform;
    }

    /**
     * The move constructor, with the source's SDF vertex array and index
     * buffer reset as well: this renderer takes every handle and the source
     * owns nothing afterwards.
     */
    constructor Moved(other: Renderer2D)
      modifies other
      ensures State() == MoveConstruct(old(other.State())).0
      ensures other.State() == MoveConstruct(old(other.State())).1
      ensures sdfTransform == old(other.sdfTransform)
    {
      quadVertexArray := other.quadVertexArray;
      quadVertexBuffer := other.quadVertexBuffer;
      quadIndexBuffer := other.quadIndexBuffer;
      cameraUniformBuffer := other.cameraUniformBuffer;
      shader := other.shader;
      viewProjection := other.viewProjection;
      sdfShader := other.sdfShader;
      sdfVertexArray := other.sdfVertexArray;
      sdfBuffer := other.sdfBuffer;
      sdfIndex := other.sdfIndex;
      sdfTransform := other.sdfTransform;
      new;
      other.quadVertexArray := 0;
      other.quadVertexBuffer := 0;
      other.quadIndexBuffer := 0;
      other.cameraUniformBuffer := 0;
      other.sdfBuffer := 0;
      other.sdfVertexArray := 0;
      other.sdfIndex := 0;
      other.shader := NoShader;
      other.sdfShader := NoShader;
      other.viewProjection := Identity;
    }

    /**
     * `Init`: creates the SDF vertex buffer, index buffer and vertex array,
     * then the quad vertex buffer, index buffer and vertex array, then the
     * camera uniform buffer, all fresh and distinct, with their bindings and
     * attribute layouts, and installs the two compiled shaders.
     */
    method Init(gl: Device, quadShader: CompiledShader, shapeShader: CompiledShader)
      requires gl.Valid()
      modifies this, gl
      ensures gl.Valid() && gl.SettingsUnchanged()
      ensures shader == quadShader && sdfShader == shapeShader
      ensures viewProjection == old(viewProjection) && sdfTransform == old(sdfTransform)
      ensures FreshNames(State(), old(gl.live))
      ensures gl.live == old(gl.live) + Owned(State())
      ensures gl.log == old(gl.log) + InitEvents(State())
    {
      sdfShader := shapeShader;
      CreateSdfObjects(gl);
      ghost var sdf, live1 := SdfObjectEvents(sdfBuffer, sdfIndex, sdfVertexArray), gl.live;
      shader := quadShader;
      CreateQuadObjects(gl);
      ghost var quad, live2 := QuadObjectEvents(quadVertexBuffer, quadIndexBuffer, quadVertexArray), gl.live;
      CreateCameraBuffer(gl);
      AppendAssoc(old(gl.log), sdf, quad);
      AppendAssoc(old(gl.log), sdf + quad, CameraBufferEvents(cameraUniformBuffer, shader.program, sdfShader.program));
      InitNames(State(), old(gl.live), live1, live2, gl.live);
    }

    /** The first part of `Init`: the SDF vertex buffer, index buffer and vertex array. */
    method CreateSdfObjects(gl: Device)
      requires gl.Valid()
      modifies this, gl
      ensures gl.Valid() && gl.SettingsUnchanged()
      ensures State() == old(State()).(sdfBuffer := sdfBuffer, sdfIndex := sdfIndex, sdfVertexArray := sdfVertexArray)
      ensures sdfTransform == old(sdfTransform)
      ensures sdfBuffer != 0 && sdfIndex != 0 && sdfVertexArray != 0
      ensures sdfBuffer !in old(gl.live) && sdfIndex !in old(gl.live) && sdfVertexArray !in old(gl.live)
      ensures sdfBuffer != sdfIndex && sdfBuffer != sdfVertexArray && sdfIndex != sdfVertexArray
      ensures gl.live == old(gl.live) + {sdfBuffer, sdfIndex, sdfVertexArray}
      ensures gl.log == old(gl.log) + SdfObjectEvents(sdfBuffer, sdfIndex, sdfVertexArray)
    {
      var vbo := GenArrayBuffer(gl);
      var ebo := GenIndexBuffer(gl);
      var vao := GenVertexArray(gl);
      LayOutSdfVertexArray(gl, vbo, ebo);
      sdfBuffer, sdfIndex, sdfVertexArray := vbo, ebo, vao;
    }

    /** The second part of `Init`: the quad vertex buffer, index buffer and vertex array. */
    method CreateQuadObjects(gl: Device)
      requires gl.Valid()
      modifies this, gl
      ensures gl.Valid() && gl.SettingsUnchanged()
      ensures State() == old(State()).(quadVertexBuffer := quadVertexBuffer, quadIndexBuffer := quadIndexBuffer,
                                       quadVertexArray := quadVertexArray)
      ensures sdfTransform == old(sdfTransform)
      ensures quadVertexBuffer != 0 && quadIndexBuffer != 0 && quadVertexArray != 0
      ensures quadVertexBuffer !in old(gl.live) && quadIndexBuffer !in old(gl.live) && quadVertexArray !in old(gl.live)
      ensures quadVertexBuffer != quadIndexBuffer && quadVertexBuffer != quadVertexArray && quadIndexBuffer != quadVertexArray
      ensures gl.live == old(gl.live) + {quadVertexBuffer, quadIndexBuffer, quadVertexArray}
      ensures gl.log == old(gl.log) + QuadObjectEvents(quadVertexBuffer, quadIndexBuffer, quadVertexArray)
    {
      var vbo := GenArrayBuffer(gl);
      var ebo := GenIndexBuffer(gl);
      var vao := GenVertexArray(gl);
      LayOutQuadVertexArray(gl, vbo, ebo);
      quadVertexBuffer, quadIndexBuffer, quadVertexArray := vbo, ebo, vao;
    }

    /** The last part of `Init`: the camera uniform buffer, tied to binding 0 and to both shaders' camera block. */
    method CreateCameraBuffer(gl: Device)
      requires gl.Valid()
      modifies this`cameraUniformBuffer, gl
      ensures gl.Valid() && gl.SettingsUnchanged()
      ensures cameraUniformBuffer != 0 && cameraUniformBuffer !in old(gl.live)
      ensures gl.live == old(gl.live) + {cameraUniformBuffer}
      ensures gl.log == old(gl.log) + CameraBufferEvents(cameraUniformBuffer, shader.program, sdfShader.program)
    {
      cameraUniformBuffer := gl.Gen(BufferObject);
      gl.Issue(BindUniformBuffer(cameraUniformBuffer));
      gl.Issue(BindBufferBase(0, cameraUniformBuffer));
      gl.Issue(BindUniformBlock(shader.program, "Camera", 0, cameraUniformBuffer));
      gl.Issue(BindUniformBlock(sdfShader.program, "Camera", 0, cameraUniformBuffer));
      gl.Issue(BindUniformBuffer(0));
    }

    /**
     * `Shutdown`: deletes each object the renderer holds, skipping zero names,
     * zeroes every name and resets both shaders.
     */
    method Shutdown(gl: Device)
      requires gl.Valid()
      modifies this, gl
      ensures gl.Valid() && gl.SettingsUnchanged()
      ensures State() == ShutDown(old(State())) && sdfTransform == old(sdfTransform)
      ensures gl.live == old(gl.live) - Owned(old(State()))
      ensures gl.log == old(gl.log) + ReleaseEvents(old(State()))
                        + [ShaderDestroyed(old(shader.program)), ShaderDestroyed(old(sdfShader.program))]
    {
      ghost var h0, live0 := State(), gl.live;
      ReleaseQuadObjects(gl);
      ReleaseSdfObjects(gl);
      AppendAssoc(old(gl.log), QuadReleaseEvents(h0), SdfReleaseEvents(h0));
      OwnedRemoved(h0, live0);
      gl.Issue(ShaderDestroyed(shader.program));
      shader := NoShader;
      gl.Issue(ShaderDestroyed(sdfShader.program));
      sdfShader := NoShader;
    }

    /** The first half of `Shutdown`: the quad objects and the camera buffer. */
    method ReleaseQuadObjects(gl: Device)
      requires gl.Valid()
      modifies this, gl
      ensures gl.Valid() && gl.SettingsUnchanged()
      ensures State() == old(State()).(quadVertexArray := 0, quadVertexBuffer := 0, quadIndexBuffer := 0, cameraUniformBuffer := 0)
      ensures sdfTransform == old(sdfTransform)
      ensures gl.live == old(gl.live) - {old(quadVertexArray)} - {old(quadVertexBuffer)} - {old(quadIndexBuffer)}
                         - {old(cameraUniformBuffer)}
      ensures gl.log == old(gl.log) + QuadReleaseEvents(old(State()))
    {
      ghost var h0, log0 := State(), gl.log;
      Release(gl, VertexArrayObject, quadVertexArray);
      quadVertexArray := 0;
      Release(gl, BufferObject, quadVertexBuffer);
      quadVertexBuffer := 0;
      AppendAssoc(log0, Drop(VertexArrayObject, h0.quadVertexArray), Drop(BufferObject, h0.quadVertexBuffer));
      Release(gl, BufferObject, quadIndexBuffer);
      quadIndexBuffer := 0;
      AppendAssoc(log0, Drop(VertexArrayObject, h0.quadVertexArray) + Drop(BufferObject, h0.quadVertexBuffer),
                  Drop(BufferObject, h0.quadIndexBuffer));
      Release(gl, BufferObject, cameraUniformBuffer);
      cameraUniformBuffer := 0;
      AppendAssoc(log0, Drop(VertexArrayObject, h0.quadVertexArray) + Drop(BufferObject, h0.quadVertexBuffer)
                        + Drop(BufferObject, h0.quadIndexBuffer), Drop(BufferObject, h0.cameraUniformBuffer));
    }

    /** The second half of `Shutdown`: the SDF objects. */
    method ReleaseSdfObjects(gl: Device)
      requires gl.Valid()
      modifies this, gl
      ensures gl.Valid() && gl.SettingsUnchanged()
      ensures State() == old(State()).(sdfVertexArray := 0, sdfBuffer := 0, sdfIndex := 0)
      ensures sdfTransform == old(sdfTransform)
      ensures gl.live == old(gl.live) - {old(sdfVertexArray)} - {old(sdfBuffer)} - {old(sdfIndex)}
      ensures gl.log == old(gl.log) + SdfReleaseEvents(old(State()))
    {
      ghost var h0, log0 := State(), gl.log;
      Release(gl, VertexArrayObject, sdfVertexArray);
      sdfVertexArray := 0;
      Release(gl, BufferObject, sdfBuffer);
      sdfBuffer := 0;
      AppendAssoc(log0, Drop(VertexArrayObject, h0.sdfVertexArray), Drop(BufferObject, h0.sdfBuffer));
      Release(gl, BufferObject, sdfIndex);
      sdfIndex := 0;
      AppendAssoc(log0, Drop(VertexArrayObject, h0.sdfVertexArray) + Drop(BufferObject, h0.sdfBuffer),
                  Drop(BufferObject, h0.sdfIndex));
    }

    /** The destructor: always runs `Shutdown`. */
    method Destroy(gl: Device)
      requires gl.Valid()
      modifies this, gl
      ensures gl.Valid() && gl.SettingsUnchanged()
      ensures State() == ShutDown(old(State())) && sdfTransform == old(sdfTransform)
      ensures gl.live == old(gl.live) - Owned(old(State()))
      ensures gl.log == old(gl.log) + ReleaseEvents(old(State()))
                        + [ShaderDestroyed(old(shader.program)), ShaderDestroyed(old(sdfShader.program))]
    {
      Shutdown(gl);
    }

    /**
     * Move assignment with every handle swapped: nothing happens on
     * self-assignment; otherwise this renderer is shut down and then
     * exchanges all its fields with `other`, which ends up owning nothing.
     */
    method MoveAssignFrom(gl: Device, other: Renderer2D)
      requires gl.Valid()
      modifies this, other, gl
      ensures gl.Valid() && gl.SettingsUnchanged()
      ensures other == this ==> State() == old(State()) && gl.log == old(gl.log) && gl.live == old(gl.live)
      ensures other != this ==> State() == MoveAssign(old(State()), old(other.State())).0
      ensures other != this ==> other.State() == MoveAssign(old(State()), old(other.State())).1
      ensures other != this ==> (gl.log == old(gl.log) + ReleaseEvents(old(State()))
                        + [ShaderDestroyed(old(shader.program)), ShaderDestroyed(old(sdfShader.program))])
      ensures other != this ==> gl.live == old(gl.live) - Owned(old(State()))
      ensures sdfTransform == old(sdfTransform) && other.sdfTransform == old(other.sdfTransform)
    {
      if other != this {
        Shutdown(gl);
        quadVertexArray, other.quadVertexArray := other.quadVertexArray, quadVertexArray;
        quadVertexBuffer, other.quadVertexBuffer := other.quadVertexBuffer, quadVertexBuffer;
        quadIndexBuffer, other.quadIndexBuffer := other.quadIndexBuffer, quadIndexBuffer;
        cameraUniformBuffer, other.cameraUniformBuffer := other.cameraUniformBuffer, cameraUniformBuffer;
        shader, other.shader := other.shader, shader;
        viewProjection, other.viewProjection := other.viewProjection, viewProjection;
        sdfShader, other.sdfShader := other.sdfShader, sdfShader;
        sdfBuffer, other.sdfBuffer := other.sdfBuffer, sdfBuffer;
        sdfVertexArray, other.sdfVertexArray := other.sdfVertexArray, sdfVertexArray;
        sdfIndex, other.sdfIndex := other.sdfIndex, sdfIndex;
      }
    }

    /**
     * `BeginScene(vp)`: remembers `vp` and uploads it to the camera uniform
     * buffer as three padded columns.
     */
    method BeginScene(gl: Device, vp: Mat3)
      requires gl.Valid()
      modifies this, gl
      ensures gl.Valid() && gl.live == old(gl.live) && gl.SettingsUnchanged()
      ensures viewProjection == vp
      ensures State() == old(State()).(viewProjection := vp) && sdfTransform == old(sdfTransform)
      ensures gl.log == old(gl.log) + SceneEvents(cameraUniformBuffer, vp)
    {
      viewProjection := vp;
      var data := Std140Columns(vp);
      gl.Issue(BindUniformBuffer(cameraUniformBuffer));
      gl.Issue(BufferSubData(cameraUniformBuffer, data));
      gl.Issue(BindUniformBuffer(0));
    }

    /** `EndScene`: nothing is batched, so there is nothing to flush. */
    method EndScene(gl: Device)
      ensures State() == old(State())
    {
    }

    /**
     * `DrawQuad`: one textured quad with the model matrix, the texture
     * transform of `bl`..`tr` and the tint, each uploaded only when the quad
     * shader declares it.
     */
    method DrawQuad(gl: Device, transform: Mat3, texture: Handle, bl: Vec2, tr: Vec2, tint: Rgba)
      requires gl.Valid()
      modifies gl
      ensures gl.Valid() && gl.live == old(gl.live) && gl.SettingsUnchanged()
      ensures gl.log == old(gl.log) + QuadEvents(shader, quadVertexArray, transform, texture, bl, tr, tint)
    {
      ghost var uniforms := QuadUniforms(shader, transform, bl, tr, tint);
      ghost var tail := [ActiveTexture(0), BindTexture(texture), BindVertexArray(quadVertexArray), DrawElements(6), BindVertexArray(0)];
      gl.Issue(UseProgram(shader.program));
      UploadQuadUniforms(gl, transform, bl, tr, tint);
      BindTextureAndDraw(gl, texture, quadVertexArray);
      AppendAssoc(old(gl.log), [UseProgram(shader.program)], uniforms);
      AppendAssoc(old(gl.log), [UseProgram(shader.program)] + uniforms, tail);
    }

    /** The uniform uploads of `DrawQuad`, in its order. */
    method UploadQuadUniforms(gl: Device, transform: Mat3, bl: Vec2, tr: Vec2, tint: Rgba)
      requires gl.Valid()
      modifies gl
      ensures gl.Valid() && gl.live == old(gl.live) && gl.SettingsUnchanged()
      ensures gl.log == old(gl.log) + QuadUniforms(shader, transform, bl, tr, tint)
    {
      ghost var log0 := gl.log;
      var model := ColumnMajor9(transform);
      var texmat := TextureTransform(bl, tr);
      ghost var u1 := UniformEvents(shader, "uModel", Floats(model));
      ghost var u2 := UniformEvents(shader, "uTextureTransform", Floats(Lits(texmat)));
      ghost var u3 := UniformEvents(shader, "uTintColor", ColorValue(tint));
      ghost var u4 := UniformEvents(shader, "uTex2d", IntValue(0));
      gl.SetUniform(shader, "uModel", Floats(model));
      gl.SetUniform(shader, "uTextureTransform", Floats(Lits(texmat)));
      AppendAssoc(log0, u1, u2);
      gl.SetUniform(shader, "uTintColor", ColorValue(tint));
      AppendAssoc(log0, u1 + u2, u3);
      gl.SetUniform(shader, "uTex2d", IntValue(0));
      AppendAssoc(log0, u1 + u2 + u3, u4);
    }

    /**
     * `DrawSDF`: stores the SDF transform computed for `transform` and the
     * line width, uploads each uniform the SDF shader declares and draws the
     * SDF quad.
     */
    method DrawSdf(gl: Device, transform: Mat3, fill: Rgba, line: Rgba, lineWidth: real, shape: SdfShape)
      requires gl.Valid()
      modifies this, gl
      ensures gl.Valid() && gl.live == old(gl.live) && gl.SettingsUnchanged()
      ensures State() == old(State()) && sdfTransform == SdfTransformOf(transform, lineWidth)
      ensures gl.log == old(gl.log) + SdfEvents(sdfShader, sdfVertexArray, transform, fill, line, lineWidth, shape)
    {
      ghost var uniforms := SdfUniforms(sdfShader, transform, fill, line, lineWidth, shape);
      ghost var tail := [BindVertexArray(sdfVertexArray), DrawElements(6), BindVertexArray(0)];
      gl.Issue(UseProgram(sdfShader.program));
      sdfTransform := SdfTransformOf(transform, lineWidth);
      UploadSdfUniforms(gl, transform, fill, line, lineWidth, shape);
      DrawBoundQuad(gl, sdfVertexArray);
      AppendAssoc(old(gl.log), [UseProgram(sdfShader.program)], uniforms);
      AppendAssoc(old(gl.log), [UseProgram(sdfShader.program)] + uniforms, tail);
    }

    /** The uniform uploads of `DrawSDF`, in its order, from the stored SDF transform. */
    method UploadSdfUniforms(gl: Device, transform: Mat3, fill: Rgba, line: Rgba, lineWidth: real, shape: SdfShape)
      requires gl.Valid() && sdfTransform == SdfTransformOf(transform, lineWidth)
      modifies gl
      ensures gl.Valid() && gl.live == old(gl.live) && gl.SettingsUnchanged()
      ensures gl.log == old(gl.log) + SdfUniforms(sdfShader, transform, fill, line, lineWidth, shape)
    {
      ghost var log0 := gl.log;
      var t := sdfTransform;
      ghost var u1 := UniformEvents(sdfShader, "uModel", Floats(t.quadTransform));
      ghost var u2 := UniformEvents(sdfShader, "quadsize", Floats(t.quadSize));
      ghost var u3 := UniformEvents(sdfShader, "size", Floats(t.worldSize));
      ghost var u4 := UniformEvents(sdfShader, "fill_color", ColorValue(fill));
      ghost var u5 := UniformEvents(sdfShader, "outline_color", ColorValue(line));
      ghost var u6 := UniformEvents(sdfShader, "shapetype", EnumValue(ShapeName(shape)));
      ghost var u7 := UniformEvents(sdfShader, "uLineWidth", FloatValue(lineWidth));
      gl.SetUniform(sdfShader, "uModel", Floats(t.quadTransform));
      gl.SetUniform(sdfShader, "quadsize", Floats(t.quadSize));
      AppendAssoc(log0, u1, u2);
      gl.SetUniform(sdfShader, "size", Floats(t.worldSize));
      AppendAssoc(log0, u1 + u2, u3);
      gl.SetUniform(sdfShader, "fill_color", ColorValue(fill));
      AppendAssoc(log0, u1 + u2 + u3, u4);
      gl.SetUniform(sdfShader, "outline_color", ColorValue(line));
      AppendAssoc(log0, u1 + u2 + u3 + u4, u5);
      gl.SetUniform(sdfShader, "shapetype", EnumValue(ShapeName(shape)));
      AppendAssoc(log0, u1 + u2 + u3 + u4 + u5, u6);
      gl.SetUniform(sdfShader, "uLineWidth", FloatValue(lineWidth));
      AppendAssoc(log0, u1 + u2 + u3 + u4 + u5 + u6, u7);
    }

    /** `DrawCircle`: the SDF draw with the circle shape. */
    method DrawCircle(gl: Device, transform: Mat3, fill: Rgba, line: Rgba, lineWidth: real)
      requires gl.Valid()
      modifies this, gl
      ensures gl.Valid() && gl.live == old(gl.live) && gl.SettingsUnchanged()
      ensures State() == old(State()) && sdfTransform == SdfTransformOf(transform, lineWidth)
      ensures gl.log == old(gl.log) + SdfEvents(sdfShader, sdfVertexArray, transform, fill, line, lineWidth, Circle)
    {
      DrawSdf(gl, transform, fill, line, lineWidth, Circle);
    }

    /** `DrawRectangle`: the SDF draw with the rectangle shape. */
    method DrawRectangle(gl: Device, transform: Mat3, fill: Rgba, line: Rgba, lineWidth: real)
      requires gl.Valid()
      modifies this, gl
      ensures gl.Valid() && gl.live == old(gl.live) && gl.SettingsUnchanged()
      ensures State() == old(State()) && sdfTransform == SdfTransformOf(transform, lineWidth)
      ensures gl.log == old(gl.log) + SdfEvents(sdfShader, sdfVertexArray, transform, fill, line, lineWidth, Rectangle)
    {
      DrawSdf(gl, transform, fill, line, lineWidth, Rectangle);
    }

    /**
     * `DrawLine(transform, start, end, color, width)`: a rectangle along the
     * segment, filled and outlined with the line colour.
     */
    method DrawLine(gl: Device, transform: Mat3, start: Vec2, end: Vec2, lineColor: Rgba, lineWidth: real)
      requires gl.Valid()
      modifies this, gl
      ensures gl.Valid() && gl.live == old(gl.live) && gl.SettingsUnchanged()
      ensures State() == old(State()) && sdfTransform == SdfTransformOf(LineTransform(transform, start, end, lineWidth), lineWidth)
      ensures gl.log == old(gl.log) + SdfEvents(sdfShader, sdfVertexArray, LineTransform(transform, start, end, lineWidth),
                                                lineColor, lineColor, lineWidth, Rectangle)
    {
      var lineTransform := LineTransform(transform, start, end, lineWidth);
      DrawSdf(gl, lineTransform, lineColor, lineColor, lineWidth, Rectangle);
    }

    /** `DrawLine(start, end, color, width)`: the same with the identity transform. */
    method DrawLineUntransformed(gl: Device, start: Vec2, end: Vec2, lineColor: Rgba, lineWidth: real)
      requires gl.Valid()
      modifies this, gl
      ensures gl.Valid() && gl.live == old(gl.live) && gl.SettingsUnchanged()
      ensures State() == old(State()) && sdfTransform == SdfTransformOf(LineTransform(Identity, start, end, lineWidth), lineWidth)
      ensures gl.log == old(gl.log) + SdfEvents(sdfShader, sdfVertexArray, LineTransform(Identity, start, end, lineWidth),
                                                lineColor, lineColor, lineWidth, Rectangle)
    {
      DrawLine(gl, Identity, start, end, lineColor, lineWidth);
    }
  }
}
