/**
 * The graphics device as the engine sees it: a set of live object names
 * handed out by `glGen*` and released by `glDelete*`, a log of the state
 * changes and draw calls issued, and the few pieces of global state that the
 * engine reads back (viewport, clear colour, bound framebuffer, the
 * framebuffer completeness status and `GL_MAX_SAMPLES`).
 */
module GL {
  import opened Vec2

  /** An OpenGL object name; 0 names no object. */
  type Handle = nat

  /** `GL_FRAMEBUFFER_COMPLETE`. */
  const FramebufferComplete: nat := 0x8CD5

  datatype ObjectKind =
    | VertexArrayObject | BufferObject | FramebufferObject | RenderbufferObject
    | TextureObject

  datatype Capability = DepthTest | Blend

  /** A colour with four channels in [0,1] as the shaders receive it. */
  datatype Color = Color(r: real, g: real, b: real, a: real)

  /** An integer rectangle: origin and size (`glViewport`). */
  datatype Rect = Rect(origin: IVec2, size: IVec2)

  /**
   * A 3x3 transformation matrix. The matrix constructors and products live
   * in a header that is not part of this model, so matrices are symbolic
   * terms and their entries are symbolic scalars.
   */
  datatype Mat3 =
    | Identity
    | Translation(offset: Vec2)
    | Rotation(angle: real)
    | Scaling(factors: Vec2)
    | Ndc(viewport: IVec2)
    | Product(left: Mat3, right: Mat3)
    | LineTransform(base: Mat3, start: Vec2, end: Vec2, width: real)

  /**
   * A float handed to the GPU: a literal; entry `[row][col]` of a matrix; or
   * component `k` of what the helper `name` computes from a matrix and a
   * number (the helpers live outside this model).
   */
  datatype Scalar =
    | Lit(value: real)
    | Entry(m: Mat3, row: nat, col: nat)
    | Derived(name: string, source: Mat3, param: real, k: nat)

  /**
   * A packed 32-bit colour: the packing of four channels, or raw bits. The
   * packing and unpacking helpers live outside this model.
   */
  datatype Rgba = PackColor(r: real, g: real, b: real, a: real) | RawRgba(bits: nat)

  /** The nine floats of `m` in column-major order: slot `3*col + row` holds `m[row][col]`. */
  function ColumnMajor9(m: Mat3): (data: seq<Scalar>)
    ensures |data| == 9
    ensures forall row, col :: 0 <= row < 3 && 0 <= col < 3 ==> data[3 * col + row] == Entry(m, row, col)
  {
    [ Entry(m, 0, 0), Entry(m, 1, 0), Entry(m, 2, 0),
      Entry(m, 0, 1), Entry(m, 1, 1), Entry(m, 2, 1),
      Entry(m, 0, 2), Entry(m, 1, 2), Entry(m, 2, 2) ]
  }

  /**
   * The twelve floats of `m` laid out as three columns padded to four (the
   * std140 layout of a `mat3` in a uniform block): slot `4*col + row` holds
   * `m[row][col]` and slots 3, 7 and 11 hold zero.
   */
  function Std140Columns(m: Mat3): (data: seq<Scalar>)
    ensures |data| == 12
    ensures forall row, col :: 0 <= row < 3 && 0 <= col < 3 ==> data[4 * col + row] == Entry(m, row, col)
    ensures forall col :: 0 <= col < 3 ==> data[4 * col + 3] == Lit(0.0)
  {
    [ Entry(m, 0, 0), Entry(m, 1, 0), Entry(m, 2, 0), Lit(0.0),
      Entry(m, 0, 1), Entry(m, 1, 1), Entry(m, 2, 1), Lit(0.0),
      Entry(m, 0, 2), Entry(m, 1, 2), Entry(m, 2, 2), Lit(0.0) ]
  }

  /** A value passed to `glUniform*`. */
  datatype UniformValue =
    | Floats(values: seq<Scalar>)
    | FloatValue(f: real)
    | IntValue(i: int)
    | Vec2Value(v: Vec2)
    | ColorValue(c: Rgba)
    | EnumValue(name: string)

  /** A linked shader program and the locations of its active uniforms by name. */
  datatype CompiledShader = CompiledShader(program: Handle, uniformLocations: map<string, int>)

  /** The value a shader object has after `Reset()` / default construction. */
  const NoShader := CompiledShader(0, map[])

  /** One attribute format as the vertex attribute calls receive it. */
  datatype AttributeFormat = AttributeFormat(glType: nat, componentCount: nat, normalize: bool)

  /** `GL_FLOAT`. */
  const GlFloat: nat := 0x1406

  /** Two floats per attribute, not normalised. */
  const Float2 := AttributeFormat(GlFloat, 2, false)

  /** `GL_COLOR_BUFFER_BIT` and `GL_DEPTH_BUFFER_BIT`, the two `glClear` masks the code uses. */
  const ColorBit: nat := 0x4000
  const DepthBit: nat := 0x100

  datatype Event =
    | Created(kind: ObjectKind, handle: Handle)
    | Deleted(kind: ObjectKind, handle: Handle)
    | BindFramebuffer(framebuffer: Handle)
    /** `GL_READ_FRAMEBUFFER` / `GL_DRAW_FRAMEBUFFER` bindings, used only around a blit. */
    | BindReadFramebuffer(readFramebuffer: Handle)
    | BindDrawFramebuffer(drawFramebuffer: Handle)
    | BindRenderbuffer(renderbuffer: Handle)
    /** `glDrawBuffers` with colour attachment 0 as the only output. */
    | DrawToColor0
    | SetViewport(rect: Rect)
    | SetClearColor(color: Color)
    /** `glClear` with its mask: `ColorBit`, optionally plus `DepthBit`. */
    | Clear(mask: nat)
    | Enable(cap: Capability)
    | Disable(cap: Capability)
    | DepthMask(write: bool)
    | UseProgram(program: Handle)
    | Uniform(location: int, value: UniformValue)
    | BindVertexArray(vao: Handle)
    | BindArrayBuffer(buffer: Handle)
    | BindIndexBuffer(buffer: Handle)
    | BindUniformBuffer(buffer: Handle)
    /** `glBindBufferBase(GL_UNIFORM_BUFFER, binding, buffer)`. */
    | BindBufferBase(binding: nat, buffer: Handle)
    /** `OpenGL::BindUniformBufferToShader`: the program's uniform block `block` tied to `binding`, which holds `buffer`. */
    | BindUniformBlock(program: Handle, block: string, binding: nat, buffer: Handle)
    /** `OpenGL::DestroyShader` of a compiled shader holding `program`; the helper's own calls are not part of this model. */
    | ShaderDestroyed(program: Handle)
    | BufferSubData(buffer: Handle, data: seq<Scalar>)
    | ActiveTexture(textureUnit: nat)
    | BindTexture(texture: Handle)
    | DrawElements(count: nat)
    | DrawArrays(count: nat)
    | BlitColor(source: Handle, target: Handle, size: IVec2)
    | EnableAttribArray(index: nat)
    | AttribPointer(index: nat, format: AttributeFormat, stride: nat, offset: nat)
    | AttribIPointer(index: nat, glType: nat, componentCount: nat, stride: nat, offset: nat)
    | AttribDivisor(index: nat, divisor: nat)
    | AttachColor(framebuffer: Handle, attachment: Handle)
    | AttachDepth(framebuffer: Handle, attachment: Handle)
    | AllocateStorage(handle: Handle, size: IVec2, samples: int)
    /** `Texture::Draw` of the region `corner1`-`corner2` of `texture` at `at` (the font's glyph draw). */
    | DrawTextureRegion(texture: Handle, at: Vec2, corner1: IVec2, corner2: IVec2, tint: Rgba)

  /** The event list of `SetUniform`: one upload when the name is active, none otherwise. */
  function UniformEvents(shader: CompiledShader, name: string, value: UniformValue): (es: seq<Event>)
    ensures name in shader.uniformLocations <==> |es| == 1
    ensures name !in shader.uniformLocations <==> es == []
    ensures |es| == 1 ==> es[0] == Uniform(shader.uniformLocations[name], value)
  {
    if name in shader.uniformLocations then [Uniform(shader.uniformLocations[name], value)] else []
  }

  /** Concatenation regrouped, for logs built call by call. */
  lemma AppendAssoc<T>(a: seq<T>, b: seq<T>, c: seq<T>)
    ensures a + (b + c) == (a + b) + c
  {
  }

  class Device {
    /** Names currently allocated. */
    var live: set<Handle>
    /** The next name `Gen` hands out; names are never reused. */
    var next: Handle
    /** Every call issued, oldest first. */
    var log: seq<Event>
    var viewport: Rect
    var clearColor: Color
    var boundFramebuffer: Handle
    /** Completeness statuses the driver will report, in order; complete once exhausted. */
    var statusQueue: seq<nat>
    /** `GL_MAX_SAMPLES` as the driver reports it. */
    const maxSamples: int

    ghost predicate Valid()
      reads this
    {
      0 < next && 0 !in live && forall h :: h in live ==> h < next
    }

    /** Nothing but the log and the live set changed. */
    twostate predicate SettingsUnchanged()
      reads this
    {
      viewport == old(viewport) && clearColor == old(clearColor)
      && boundFramebuffer == old(boundFramebuffer) && statusQueue == old(statusQueue)
    }

    constructor (maxSamples: int, statusQueue: seq<nat>)
      ensures Valid() && live == {} && log == []
      ensures this.maxSamples == maxSamples && this.statusQueue == statusQueue
      ensures boundFramebuffer == 0
    {
      this.maxSamples := maxSamples;
      this.statusQueue := statusQueue;
      live := {};
      next := 1;
      log := [];
      viewport := Rect(IVec2(0, 0), IVec2(0, 0));
      clearColor := Color(0.0, 0.0, 0.0, 0.0);
      boundFramebuffer := 0;
    }

    /** `glGen*`: a fresh non-zero name, now live. */
    method Gen(kind: ObjectKind) returns (h: Handle)
      requires Valid()
      modifies this
      ensures Valid() && SettingsUnchanged()
      ensures h != 0 && h !in old(live) && live == old(live) + {h}
      ensures log == old(log) + [Created(kind, h)]
    {
      h := next;
      next := next + 1;
      live := live + {h};
      log := log + [Created(kind, h)];
    }

    /** `glDelete*` of one name; the name is no longer live. */
    method Delete(kind: ObjectKind, h: Handle)
      requires Valid()
      modifies this
      ensures Valid() && SettingsUnchanged() && next == old(next)
      ensures live == old(live) - {h}
      ensures log == old(log) + [Deleted(kind, h)]
    {
      live := live - {h};
      log := log + [Deleted(kind, h)];
    }

    /**
     * Any other call: appended to the log; a viewport, clear-colour or
     * framebuffer binding also becomes the current one.
     */
    method Emit(e: Event)
      requires Valid()
      requires !e.Created? && !e.Deleted?
      modifies this
      ensures Valid() && live == old(live) && next == old(next)
      ensures log == old(log) + [e]
      ensures viewport == (if e.SetViewport? then e.rect else old(viewport))
      ensures clearColor == (if e.SetClearColor? then e.color else old(clearColor))
      ensures boundFramebuffer == (if e.BindFramebuffer? then e.framebuffer else old(boundFramebuffer))
      ensures statusQueue == old(statusQueue)
    {
      log := log + [e];
      if e.SetViewport? {
        viewport := e.rect;
      } else if e.SetClearColor? {
        clearColor := e.color;
      } else if e.BindFramebuffer? {
        boundFramebuffer := e.framebuffer;
      }
    }

    /**
     * A call that allocates nothing and changes none of the state read back
     * (anything but a creation, deletion, viewport, clear colour or
     * framebuffer binding): only appended to the log.
     */
    method Issue(e: Event)
      requires Valid()
      requires !e.Created? && !e.Deleted? && !e.SetViewport? && !e.SetClearColor? && !e.BindFramebuffer?
      modifies this
      ensures Valid() && live == old(live) && next == old(next) && SettingsUnchanged()
      ensures log == old(log) + [e]
    {
      log := log + [e];
    }

    /** `glCheckFramebufferStatus`: the next queued status, or complete. */
    method CheckFramebufferStatus() returns (status: nat)
      modifies this
      ensures status == (if old(statusQueue) == [] then FramebufferComplete else old(statusQueue)[0])
      ensures statusQueue == (if old(statusQueue) == [] then [] else old(statusQueue)[1..])
      ensures live == old(live) && next == old(next) && log == old(log)
      ensures viewport == old(viewport) && clearColor == old(clearColor)
      ensures boundFramebuffer == old(boundFramebuffer)
    {
      if statusQueue == [] {
        status := FramebufferComplete;
      } else {
        status := statusQueue[0];
        statusQueue := statusQueue[1..];
      }
    }

    /**
     * Uploads a uniform by name when the shader has it; a name the shader
     * does not use is skipped without error.
     */
    method SetUniform(shader: CompiledShader, name: string, value: UniformValue)
      requires Valid()
      modifies this
      ensures Valid() && live == old(live) && next == old(next) && SettingsUnchanged()
      ensures log == old(log) + UniformEvents(shader, name, value)
    {
      if name in shader.uniformLocations {
        Issue(Uniform(shader.uniformLocations[name], value));
      }
    }
  }
}
