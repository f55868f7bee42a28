/**
 * `DemoDepthPost`: a scene of opaque and transparent quads drawn into a
 * multisampled framebuffer with depth testing, resolved into a texture, run
 * through a chain of fullscreen effects and gamma-corrected to the window.
 * The render targets are GPU objects the demo creates, checks and releases.
 */
module DepthPost {
  import opened Vec2
  import opened GL
  import opened Text
  import opened DrawOrdering
  import opened DepthScene
  import opened SceneLayout
  import opened PostChain

  /** The multisampled scene target: a framebuffer with colour and depth-stencil renderbuffers. */
  datatype MsaaTarget = MsaaTarget(framebuffer: Handle, colorBuffer: Handle, depthBuffer: Handle, size: IVec2, samples: int)

  /** A default-constructed `MsaaTarget`. */
  const FreshMsaaTarget := MsaaTarget(0, 0, 0, IVec2(0, 0), 4)

  /** A framebuffer with one colour texture. */
  datatype ColorTarget = ColorTarget(framebuffer: Handle, texture: Handle, size: IVec2)

  /** A default-constructed `ColorTarget`, and what a destroyed one becomes. */
  const NoColorTarget := ColorTarget(0, 0, IVec2(0, 0))

  /** How a call that may throw `std::runtime_error` ends. */
  datatype Outcome = Done | Thrown(message: string)

  // ---------------------------------------------------------------------
  // Framebuffer completeness
  // ---------------------------------------------------------------------

  /** The status the next `glCheckFramebufferStatus` reports, given the driver's queue. */
  function NextStatus(q: seq<nat>): nat {
    if q == [] then FramebufferComplete else q[0]
  }

  /** The driver's queue after one status check. */
  function RestStatus(q: seq<nat>): seq<nat> {
    if q == [] then [] else q[1..]
  }

  /** The text of the error: the caption, " incomplete: 0x", and the status in lower-case hex. */
  function IncompleteMessage(caption: string, status: nat): string {
    caption + " incomplete: 0x" + Hex(status)
  }

  /** `verifyFramebufferComplete(caption)` when the driver reports `status`. */
  function StatusOutcome(caption: string, status: nat): Outcome {
    if status == FramebufferComplete then Done else Thrown(IncompleteMessage(caption, status))
  }

  /**
   * The check returns normally exactly on `GL_FRAMEBUFFER_COMPLETE`; otherwise
   * the error names the caption first, and different statuses give different
   * errors.
   */
  lemma StatusOutcomeSpec(caption: string, a: nat, b: nat)
    ensures StatusOutcome(caption, a).Done? <==> a == FramebufferComplete
    ensures StatusOutcome(caption, a).Thrown? ==> caption + " incomplete: 0x" <= StatusOutcome(caption, a).message
    ensures StatusOutcome(caption, a).Thrown? && StatusOutcome(caption, a) == StatusOutcome(caption, b) ==> a == b
  {
    if StatusOutcome(caption, a).Thrown? && StatusOutcome(caption, a) == StatusOutcome(caption, b) {
      var prefix := caption + " incomplete: 0x";
      assert b != FramebufferComplete;
      assert prefix + Hex(a) == prefix + Hex(b);
      assert Hex(a) == (prefix + Hex(a))[|prefix|..];
      assert Hex(b) == (prefix + Hex(b))[|prefix|..];
      HexInjective(a, b);
    }
  }

  /** A run of checks that stops at the first incomplete framebuffer. */
  function ChecksOutcome(captions: seq<string>, q: seq<nat>): Outcome
    decreases |captions|
  {
    if captions == [] then Done
    else
      var o := StatusOutcome(captions[0], NextStatus(q));
      if o.Thrown? then o else ChecksOutcome(captions[1..], RestStatus(q))
  }

  /** The checks of `rebuildRenderTargets`: the MSAA framebuffer, then the three colour targets. */
  const RebuildCaptions: seq<string> := ["MSAA framebuffer", "color target", "color target", "color target"]

  /**
   * The run succeeds exactly when every status it reads is complete (an
   * exhausted queue reads as complete); otherwise it fails with the error of
   * the first incomplete one.
   */
  lemma {:induction false} ChecksOutcomeSpec(captions: seq<string>, q: seq<nat>)
    ensures ChecksOutcome(captions, q).Done? <==> forall k :: 0 <= k < |captions| && k < |q| ==> q[k] == FramebufferComplete
    ensures ChecksOutcome(captions, q).Thrown? ==>
              exists k :: 0 <= k < |captions| && k < |q| && q[k] != FramebufferComplete
                          && (forall j :: 0 <= j < k ==> q[j] == FramebufferComplete)
                          && ChecksOutcome(captions, q) == StatusOutcome(captions[k], q[k])
    decreases |captions|
  {
    if captions != [] {
      ChecksOutcomeSpec(captions[1..], RestStatus(q));
      if q != [] {
        var r := q[1..];
        assert forall k :: 0 <= k < |r| ==> r[k] == q[k + 1];
        if ChecksOutcome(captions, q).Thrown? && q[0] == FramebufferComplete {
          var k :| 0 <= k < |captions[1..]| && k < |r| && r[k] != FramebufferComplete
                   && (forall j :: 0 <= j < k ==> r[j] == FramebufferComplete)
                   && ChecksOutcome(captions[1..], r) == StatusOutcome(captions[1..][k], r[k]);
          assert captions[k + 1] == captions[1..][k];
          assert forall j :: 0 <= j < k + 1 ==> q[j] == FramebufferComplete by {
            forall j | 0 <= j < k + 1 ensures q[j] == FramebufferComplete {
              if j > 0 {
                assert q[j] == r[j - 1];
              }
            }
          }
        }
      }
    }
  }

  /** How many of the next `n` checks pass before the first incomplete framebuffer. */
  function Passed(q: seq<nat>, n: nat): (k: nat)
    ensures k <= n
  {
    if n == 0 || NextStatus(q) != FramebufferComplete then 0 else 1 + Passed(RestStatus(q), n - 1)
  }

  /** A run of checks returns normally exactly when every one of its checks passes. */
  lemma {:induction false} PassedOutcome(captions: seq<string>, q: seq<nat>)
    ensures ChecksOutcome(captions, q).Done? <==> Passed(q, |captions|) == |captions|
    decreases |captions|
  {
    if captions != [] {
      PassedOutcome(captions[1..], RestStatus(q));
    }
  }

  // ---------------------------------------------------------------------
  // Render target lifecycle
  // ---------------------------------------------------------------------

  /** `destroyColorTarget`: the texture, then the framebuffer, each only if non-zero. */
  function ReleaseEvents(t: ColorTarget): seq<Event> {
    (if t.texture != 0 then [Deleted(TextureObject, t.texture)] else [])
    + (if t.framebuffer != 0 then [Deleted(FramebufferObject, t.framebuffer)] else [])
  }

  /** The MSAA half of `destroyRenderTargets`: colour, depth, then the framebuffer, each only if non-zero. */
  function MsaaReleaseEvents(m: MsaaTarget): seq<Event> {
    (if m.colorBuffer != 0 then [Deleted(RenderbufferObject, m.colorBuffer)] else [])
    + (if m.depthBuffer != 0 then [Deleted(RenderbufferObject, m.depthBuffer)] else [])
    + (if m.framebuffer != 0 then [Deleted(FramebufferObject, m.framebuffer)] else [])
  }

  /** `destroyRenderTargets`: the resolve target, both post targets, then the MSAA target. */
  function DestroyEvents(resolve: ColorTarget, posts: seq<ColorTarget>, msaa: MsaaTarget): seq<Event>
    requires |posts| == 2
  {
    ReleaseEvents(resolve) + ReleaseEvents(posts[0]) + ReleaseEvents(posts[1]) + MsaaReleaseEvents(msaa)
  }

  function TargetHandles(t: ColorTarget): set<Handle> {
    {t.framebuffer, t.texture} - {0}
  }

  function MsaaHandles(m: MsaaTarget): set<Handle> {
    {m.framebuffer, m.colorBuffer, m.depthBuffer} - {0}
  }

  /** Every non-zero handle the render targets hold. */
  function AllTargetHandles(resolve: ColorTarget, posts: seq<ColorTarget>, msaa: MsaaTarget): set<Handle>
    requires |posts| == 2
  {
    TargetHandles(resolve) + TargetHandles(posts[0]) + TargetHandles(posts[1]) + MsaaHandles(msaa)
  }

  /** The MSAA target with its handles zeroed; its size and sample count stay. */
  function Cleared(m: MsaaTarget): MsaaTarget {
    m.(framebuffer := 0, colorBuffer := 0, depthBuffer := 0)
  }

  /** The handles a list of calls deletes. */
  function DeletedHandles(es: seq<Event>): set<Handle>
    decreases |es|
  {
    if es == [] then {} else (if es[0].Deleted? then {es[0].handle} else {}) + DeletedHandles(es[1..])
  }

  /** Every event is a deletion. */
  predicate OnlyDeletions(es: seq<Event>) {
    forall k :: 0 <= k < |es| ==> es[k].Deleted?
  }

  /** Only deletions, and exactly of the non-zero handles. */
  lemma DestroyEventsSpec(resolve: ColorTarget, posts: seq<ColorTarget>, msaa: MsaaTarget)
    requires |posts| == 2
    ensures OnlyDeletions(DestroyEvents(resolve, posts, msaa))
    ensures DeletedHandles(DestroyEvents(resolve, posts, msaa)) == AllTargetHandles(resolve, posts, msaa)
  {
    var a := ReleaseEvents(resolve);
    var b := ReleaseEvents(posts[0]);
    var c := ReleaseEvents(posts[1]);
    var d := MsaaReleaseEvents(msaa);
    ReleaseDeletes(resolve);
    ReleaseDeletes(posts[0]);
    ReleaseDeletes(posts[1]);
    MsaaReleaseDeletes(msaa);
    DeletedAppend(a, b);
    DeletedAppend(a + b, c);
    DeletedAppend(a + b + c, d);
  }

  lemma ReleaseDeletes(t: ColorTarget)
    ensures OnlyDeletions(ReleaseEvents(t))
    ensures DeletedHandles(ReleaseEvents(t)) == TargetHandles(t)
  {
    var a := if t.texture != 0 then [Deleted(TextureObject, t.texture)] else [];
    var b := if t.framebuffer != 0 then [Deleted(FramebufferObject, t.framebuffer)] else [];
    assert DeletedHandles(a) == {t.texture} - {0} by { if a != [] { assert a[1..] == []; } }
    assert DeletedHandles(b) == {t.framebuffer} - {0} by { if b != [] { assert b[1..] == []; } }
    DeletedAppend(a, b);
  }

  lemma MsaaReleaseDeletes(m: MsaaTarget)
    ensures OnlyDeletions(MsaaReleaseEvents(m))
    ensures DeletedHandles(MsaaReleaseEvents(m)) == MsaaHandles(m)
  {
    var a := if m.colorBuffer != 0 then [Deleted(RenderbufferObject, m.colorBuffer)] else [];
    var b := if m.depthBuffer != 0 then [Deleted(RenderbufferObject, m.depthBuffer)] else [];
    var c := if m.framebuffer != 0 then [Deleted(FramebufferObject, m.framebuffer)] else [];
    assert DeletedHandles(a) == {m.colorBuffer} - {0} by { if a != [] { assert a[1..] == []; } }
    assert DeletedHandles(b) == {m.depthBuffer} - {0} by { if b != [] { assert b[1..] == []; } }
    assert DeletedHandles(c) == {m.framebuffer} - {0} by { if c != [] { assert c[1..] == []; } }
    DeletedAppend(a, b);
    DeletedAppend(a + b, c);
  }

  lemma {:induction false} DeletedAppend(a: seq<Event>, b: seq<Event>)
    ensures DeletedHandles(a + b) == DeletedHandles(a) + DeletedHandles(b)
    decreases |a|
  {
    if a == [] {
      assert a + b == b;
    } else {
      assert (a + b)[0] == a[0] && (a + b)[1..] == a[1..] + b;
      DeletedAppend(a[1..], b);
    }
  }

  /** Destroying again after a destroy deletes nothing. */
  lemma DestroyTwice(m: MsaaTarget)
    ensures DestroyEvents(NoColorTarget, [NoColorTarget, NoColorTarget], Cleared(m)) == []
    ensures AllTargetHandles(NoColorTarget, [NoColorTarget, NoColorTarget], Cleared(m)) == {}
  {
  }

  /** `std::clamp(requested, 1, std::max(1, maxSamples))`. */
  function SampleCount(requested: int, maxSamples: int): (n: int)
    ensures 1 <= n && (n <= maxSamples || n == 1)
    ensures 1 <= requested && requested <= maxSamples ==> n == requested
    ensures requested < 1 ==> n == 1
  {
    var hi := if maxSamples < 1 then 1 else maxSamples;
    if requested < 1 then 1 else if hi < requested then hi else requested
  }

  /** The calls that create the MSAA target. */
  function MsaaEvents(m: MsaaTarget): seq<Event> {
    [ Created(FramebufferObject, m.framebuffer), BindFramebuffer(m.framebuffer),
      Created(RenderbufferObject, m.colorBuffer), BindRenderbuffer(m.colorBuffer),
      AllocateStorage(m.colorBuffer, m.size, m.samples), AttachColor(m.framebuffer, m.colorBuffer),
      Created(RenderbufferObject, m.depthBuffer), BindRenderbuffer(m.depthBuffer),
      AllocateStorage(m.depthBuffer, m.size, m.samples), AttachDepth(m.framebuffer, m.depthBuffer),
      DrawToColor0 ]
  }

  /** A fresh renderbuffer, bound, with multisampled storage of `size` allocated. */
  method AllocateRenderbuffer(gl: Device, size: IVec2, samples: nat) returns (r: Handle)
    requires gl.Valid()
    modifies gl
    ensures gl.Valid() && gl.SettingsUnchanged()
    ensures r != 0 && r !in old(gl.live) && gl.live == old(gl.live) + {r}
    ensures gl.log == old(gl.log) + [Created(RenderbufferObject, r), BindRenderbuffer(r), AllocateStorage(r, size, samples)]
  {
    r := gl.Gen(RenderbufferObject);
    gl.Issue(BindRenderbuffer(r));
    gl.Issue(AllocateStorage(r, size, samples));
  }

  /** The calls of `createColorTarget` up to its completeness check. */
  function ColorTargetEvents(t: ColorTarget): seq<Event> {
    [ Created(FramebufferObject, t.framebuffer), BindFramebuffer(t.framebuffer),
      Created(TextureObject, t.texture), AllocateStorage(t.texture, t.size, 0),
      AttachColor(t.framebuffer, t.texture), DrawToColor0 ]
  }

  /** `resolveMsaaToTexture`: a colour blit from the MSAA framebuffer into the resolve framebuffer. */
  function ResolveEvents(msaa: Handle, resolve: Handle, size: IVec2): seq<Event> {
    [ BindReadFramebuffer(msaa), BindDrawFramebuffer(resolve), BlitColor(msaa, resolve, size),
      BindReadFramebuffer(0), BindDrawFramebuffer(0) ]
  }

  /** The calls of `rebuildRenderTargets` after its completeness check of the MSAA framebuffer. */
  const MsaaUnbind: seq<Event> := [BindFramebuffer(0), BindRenderbuffer(0)]

  /** A complete `createColorTarget`: its calls up to the check, then the framebuffer unbound. */
  function CreatedTargetEvents(t: ColorTarget): seq<Event> {
    ColorTargetEvents(t) + [BindFramebuffer(0)]
  }

  /** The calls of a `rebuildRenderTargets` whose four checks all pass. */
  function RebuildEvents(m: MsaaTarget, resolve: ColorTarget, post0: ColorTarget, post1: ColorTarget): seq<Event> {
    MsaaEvents(m) + MsaaUnbind + CreatedTargetEvents(resolve) + CreatedTargetEvents(post0) + CreatedTargetEvents(post1)
  }

  // ---------------------------------------------------------------------
  // Geometry
  // ---------------------------------------------------------------------

  /**
   * The calls of `createQuad`: a vertex array with a vertex buffer and an
   * index buffer, position at offset 0 and texture coordinate at offset 8 of
   * a 16-byte vertex. The vertex and index uploads are not part of this model.
   */
  function QuadEvents(vao: Handle, vbo: Handle, ebo: Handle): seq<Event> {
    [ Created(VertexArrayObject, vao), BindVertexArray(vao),
      Created(BufferObject, vbo), BindArrayBuffer(vbo),
      Created(BufferObject, ebo), BindIndexBuffer(ebo),
      EnableAttribArray(0), AttribPointer(0, Float2, 16, 0),
      EnableAttribArray(1), AttribPointer(1, Float2, 16, 8),
      BindVertexArray(0) ]
  }

  /** `destroyGeometry`: index buffer, vertex buffer, quad array, fullscreen array, each only if non-zero. */
  function GeometryReleaseEvents(vao: Handle, vbo: Handle, ebo: Handle, fullscreenVao: Handle): seq<Event> {
    (if ebo != 0 then [Deleted(BufferObject, ebo)] else [])
    + (if vbo != 0 then [Deleted(BufferObject, vbo)] else [])
    + (if vao != 0 then [Deleted(VertexArrayObject, vao)] else [])
    + (if fullscreenVao != 0 then [Deleted(VertexArrayObject, fullscreenVao)] else [])
  }

  /**
   * Only deletions, exactly of the non-zero handles; with all four handles
   * zero, as `destroyGeometry` leaves them, a second call deletes nothing.
   */
  lemma GeometryReleaseSpec(vao: Handle, vbo: Handle, ebo: Handle, fullscreenVao: Handle)
    ensures OnlyDeletions(GeometryReleaseEvents(vao, vbo, ebo, fullscreenVao))
    ensures DeletedHandles(GeometryReleaseEvents(vao, vbo, ebo, fullscreenVao)) == {vao, vbo, ebo, fullscreenVao} - {0}
    ensures GeometryReleaseEvents(0, 0, 0, 0) == []
  {
    var a := if ebo != 0 then [Deleted(BufferObject, ebo)] else [];
    var b := if vbo != 0 then [Deleted(BufferObject, vbo)] else [];
    var c := if vao != 0 then [Deleted(VertexArrayObject, vao)] else [];
    var d := if fullscreenVao != 0 then [Deleted(VertexArrayObject, fullscreenVao)] else [];
    DeletionOf(BufferObject, ebo);
    DeletionOf(BufferObject, vbo);
    DeletionOf(VertexArrayObject, vao);
    DeletionOf(VertexArrayObject, fullscreenVao);
    DeletionsAppend(a, b);
    DeletionsAppend(a + b, c);
    DeletionsAppend(a + b + c, d);
    assert GeometryReleaseEvents(vao, vbo, ebo, fullscreenVao) == a + b + c + d;
    NonZeroOfFour(vao, vbo, ebo, fullscreenVao);
  }

  /** The non-zero ones among four handles, gathered in the order `destroyGeometry` deletes them. */
  lemma NonZeroOfFour(w: Handle, x: Handle, y: Handle, z: Handle)
    ensures ({y} - {0}) + ({x} - {0}) + ({w} - {0}) + ({z} - {0}) == {w, x, y, z} - {0}
  {
  }

  /** The deletion of one handle, skipped for 0. */
  lemma DeletionOf(kind: ObjectKind, h: Handle)
    ensures var e := if h != 0 then [Deleted(kind, h)] else [];
            OnlyDeletions(e) && DeletedHandles(e) == {h} - {0}
  {
    var e := if h != 0 then [Deleted(kind, h)] else [];
    if e != [] {
      assert e[1..] == [];
    }
  }

  /** Two runs of deletions make one, deleting both runs' handles. */
  lemma DeletionsAppend(a: seq<Event>, b: seq<Event>)
    requires OnlyDeletions(a) && OnlyDeletions(b)
    ensures OnlyDeletions(a + b)
    ensures DeletedHandles(a + b) == DeletedHandles(a) + DeletedHandles(b)
  {
    DeletedAppend(a, b);
  }

  /** The calls of `createFullscreenTriangle`: a vertex array with no buffers, bound and unbound. */
  function FullscreenVaoEvents(vao: Handle): seq<Event> {
    [Created(VertexArrayObject, vao), BindVertexArray(vao), BindVertexArray(0)]
  }

  /** The calls `Load` makes before building the render targets. */
  function SetupEvents(quadVao: Handle, quadVbo: Handle, quadEbo: Handle, fullscreenVao: Handle, white: Handle): seq<Event> {
    [SetClearColor(SceneClearColor)] + QuadEvents(quadVao, quadVbo, quadEbo) + FullscreenVaoEvents(fullscreenVao)
    + WhiteTextureEvents(white)
  }

  /** `createWhiteTexture`: a 1x1 texture holding one white pixel. */
  function WhiteTextureEvents(t: Handle): seq<Event> {
    [Created(TextureObject, t), AllocateStorage(t, IVec2(1, 1), 0)]
  }

  /**
   * The generator's outputs left after `std::shuffle` of `n` indices, which
   * draws one for each position from the last down to the second.
   */
  function AfterShuffle(picks: seq<nat>, n: nat): (rest: seq<nat>)
    ensures n <= 1 ==> rest == picks
    ensures n > 1 && n - 1 <= |picks| ==> picks == picks[..n - 1] + rest
  {
    if n <= 1 then picks else if |picks| <= n - 1 then [] else picks[n - 1..]
  }

  /** `drawFullscreenPass`: the common uniforms, `input` on texture unit 0, one triangle. */
  method DrawFullscreenPass(gl: Device, shader: CompiledShader, input: Handle, size: IVec2, time: real)
    requires gl.Valid() && size.x != 0 && size.y != 0
    modifies gl
    ensures gl.Valid() && gl.live == old(gl.live) && gl.next == old(gl.next) && gl.SettingsUnchanged()
    ensures gl.log == old(gl.log) + FullscreenEvents(shader, input, size, time)
  {
    SetCommonUniforms(gl, shader, size, time);
    gl.Issue(ActiveTexture(0));
    gl.Issue(BindTexture(input));
    gl.Issue(DrawArrays(3));
    AppendAssoc(old(gl.log), CommonUniforms(shader, size, time), [ActiveTexture(0), BindTexture(input), DrawArrays(3)]);
  }

  /** The uniforms every pass sets: the input unit, the texel size, the resolution and the time. */
  method SetCommonUniforms(gl: Device, shader: CompiledShader, size: IVec2, time: real)
    requires gl.Valid() && size.x != 0 && size.y != 0
    modifies gl
    ensures gl.Valid() && gl.live == old(gl.live) && gl.next == old(gl.next) && gl.SettingsUnchanged()
    ensures gl.log == old(gl.log) + CommonUniforms(shader, size, time)
  {
    ghost var log0 := gl.log;
    gl.SetUniform(shader, "uInput", IntValue(0));
    ghost var a := UniformEvents(shader, "uInput", IntValue(0));
    gl.SetUniform(shader, "uTexelSize", Vec2Value(Vec2(1.0 / size.x as real, 1.0 / size.y as real)));
    ghost var b := UniformEvents(shader, "uTexelSize", Vec2Value(Vec2(1.0 / size.x as real, 1.0 / size.y as real)));
    gl.SetUniform(shader, "uResolution", Vec2Value(Vec2(size.x as real, size.y as real)));
    ghost var c := UniformEvents(shader, "uResolution", Vec2Value(Vec2(size.x as real, size.y as real)));
    gl.SetUniform(shader, "uTime", FloatValue(time));
    ghost var d := UniformEvents(shader, "uTime", FloatValue(time));
    assert gl.log == log0 + a + b + c + d;
    AppendAssoc(log0, a, b);
    AppendAssoc(log0, a + b, c);
    AppendAssoc(log0, a + b + c, d);
  }

  /** The uniforms of one effect pass, each only when its shader has it. */
  method SetEffectUniforms(gl: Device, s: Settings, e: Effect)
    requires gl.Valid()
    modifies gl
    ensures gl.Valid() && gl.live == old(gl.live) && gl.next == old(gl.next) && gl.SettingsUnchanged()
    ensures gl.log == old(gl.log) + EffectUniforms(s, e)
  {
    ghost var log0 := gl.log;
    match e
    case Chromatic =>
      gl.SetUniform(s.chromaticShader, "uStrength", FloatValue(s.chromaticStrength));
    case Vignette =>
      gl.SetUniform(s.vignetteShader, "uIntensity", FloatValue(s.vignetteIntensity));
      ghost var a := UniformEvents(s.vignetteShader, "uIntensity", FloatValue(s.vignetteIntensity));
      gl.SetUniform(s.vignetteShader, "uRadius", FloatValue(s.vignetteRadius));
      ghost var b := UniformEvents(s.vignetteShader, "uRadius", FloatValue(s.vignetteRadius));
      gl.SetUniform(s.vignetteShader, "uSoftness", FloatValue(s.vignetteSoftness));
      ghost var c := UniformEvents(s.vignetteShader, "uSoftness", FloatValue(s.vignetteSoftness));
      AppendAssoc(log0, a, b);
      AppendAssoc(log0, a + b, c);
    case Grain =>
      gl.SetUniform(s.grainShader, "uGrainIntensity", FloatValue(s.grainIntensity));
      ghost var a := UniformEvents(s.grainShader, "uGrainIntensity", FloatValue(s.grainIntensity));
      gl.SetUniform(s.grainShader, "uScanlineIntensity", FloatValue(s.scanlineIntensity));
      ghost var b := UniformEvents(s.grainShader, "uScanlineIntensity", FloatValue(s.scanlineIntensity));
      AppendAssoc(log0, a, b);
  }

  /**
   * One effect pass of `runPostProcessing`: bind the target's framebuffer,
   * full viewport, clear, the effect's program and uniforms, then the
   * fullscreen draw sampling the pass's input.
   */
  method RunPass(gl: Device, s: Settings, p: Pass, framebuffers: seq<Handle>)
    requires gl.Valid() && s.viewportSize.x != 0 && s.viewportSize.y != 0 && p.target < |framebuffers|
    modifies gl
    ensures gl.Valid() && gl.live == old(gl.live) && gl.next == old(gl.next) && gl.statusQueue == old(gl.statusQueue)
    ensures gl.clearColor == old(gl.clearColor)
    ensures gl.log == old(gl.log) + PassEvents(s, p, framebuffers)
  {
    ghost var log0 := gl.log;
    var shader := EffectShader(s, p.effect);
    gl.Emit(BindFramebuffer(framebuffers[p.target]));
    gl.Emit(SetViewport(FullViewport(s.viewportSize)));
    gl.Issue(Clear(ColorBit));
    gl.Issue(UseProgram(shader.program));
    ghost var head := TargetEvents(framebuffers[p.target], s.viewportSize) + [UseProgram(shader.program)];
    assert gl.log == log0 + head;
    SetEffectUniforms(gl, s, p.effect);
    AppendAssoc(log0, head, EffectUniforms(s, p.effect));
    DrawFullscreenPass(gl, shader, p.input, s.viewportSize, s.time);
    AppendAssoc(log0, head + EffectUniforms(s, p.effect), FullscreenEvents(shader, p.input, s.viewportSize, s.time));
  }

  /** Running one more effect: one more pass from the cursor into target `ping`, after which `ping` flips. */
  lemma StageStep(done: seq<Effect>, e: Effect, source: Handle, textures: seq<Handle>)
    requires |textures| == 2
    ensures Passes(done + [e], source, textures)
            == Passes(done, source, textures) + [Pass(e, Output(done, source, textures), |done| % 2)]
    ensures Output(done + [e], source, textures) == textures[|done| % 2]
    ensures |done + [e]| % 2 == 1 - |done| % 2
  {
    PassesSnoc(done, e, source, 0, textures);
    assert (0 + |done|) % 2 == |done| % 2;
  }

  /**
   * An enabled effect of `runPostProcessing`: its pass writes target `ping`
   * reading the cursor, then the cursor moves to that target's texture and
   * `ping` flips. Before and after, the cursor and `ping` are where the
   * chain definition puts them after the effects run so far.
   */
  method Stage(gl: Device, s: Settings, e: Effect, source: Handle, textures: seq<Handle>, framebuffers: seq<Handle>,
               ghost done: seq<Effect>, ghost start: seq<Event>, current: Handle, ping: nat)
    returns (next: Handle, nextPing: nat)
    requires gl.Valid() && s.viewportSize.x != 0 && s.viewportSize.y != 0 && |textures| == 2 && |framebuffers| == 2
    requires current == Output(done, source, textures) && ping == |done| % 2
    requires gl.log == start + PassesEvents(s, Passes(done, source, textures), framebuffers)
    modifies gl
    ensures gl.Valid() && gl.live == old(gl.live) && gl.next == old(gl.next) && gl.statusQueue == old(gl.statusQueue)
    ensures gl.clearColor == old(gl.clearColor)
    ensures next == Output(done + [e], source, textures) && nextPing == |done + [e]| % 2
    ensures gl.log == start + PassesEvents(s, Passes(done + [e], source, textures), framebuffers)
  {
    var pass := Pass(e, current, ping);
    ghost var ps := Passes(done, source, textures);
    ghost var before := PassesEvents(s, ps, framebuffers);
    StageStep(done, e, source, textures);
    RunPass(gl, s, pass, framebuffers);
    PassesEventsSnoc(s, ps, pass, framebuffers);
    AppendAssoc(start, before, PassEvents(s, pass, framebuffers));
    next := textures[ping];
    nextPing := 1 - ping;
  }

  /** The gamma pass: into the default framebuffer with the gamma exponent, sampling the cursor. */
  method GammaPass(gl: Device, s: Settings, input: Handle)
    requires gl.Valid() && s.viewportSize.x != 0 && s.viewportSize.y != 0
    modifies gl
    ensures gl.Valid() && gl.live == old(gl.live) && gl.next == old(gl.next) && gl.statusQueue == old(gl.statusQueue)
    ensures gl.boundFramebuffer == 0 && gl.viewport == FullViewport(s.viewportSize) && gl.clearColor == old(gl.clearColor)
    ensures gl.log == old(gl.log) + GammaEvents(s, input)
  {
    ghost var log0 := gl.log;
    gl.Emit(BindFramebuffer(0));
    gl.Emit(SetViewport(FullViewport(s.viewportSize)));
    gl.Issue(Clear(ColorBit));
    gl.Issue(UseProgram(s.gammaShader.program));
    ghost var head := TargetEvents(0, s.viewportSize) + [UseProgram(s.gammaShader.program)];
    assert gl.log == log0 + head;
    var gamma := if s.enableGamma then s.gammaValue else 1.0;
    gl.SetUniform(s.gammaShader, "uGamma", FloatValue(gamma));
    ghost var g := UniformEvents(s.gammaShader, "uGamma", FloatValue(GammaExponent(s)));
    AppendAssoc(log0, head, g);
    DrawFullscreenPass(gl, s.gammaShader, input, s.viewportSize, s.time);
    AppendAssoc(log0, head + g, FullscreenEvents(s.gammaShader, input, s.viewportSize, s.time));
  }

  /** The start of `runPostProcessing`: no depth test, no depth writes, no blending, the fullscreen vertex array. */
  method BeginPostPass(gl: Device, s: Settings)
    requires gl.Valid()
    modifies gl
    ensures gl.Valid() && gl.live == old(gl.live) && gl.next == old(gl.next) && gl.SettingsUnchanged()
    ensures gl.log == old(gl.log) + PostPrologue(s)
  {
    gl.Issue(Disable(DepthTest));
    gl.Issue(DepthMask(false));
    gl.Issue(Disable(Blend));
    gl.Issue(BindVertexArray(s.fullscreenVao));
  }

  /** The end of `runPostProcessing`: the vertex array unbound and depth writes back on. */
  method EndPostPass(gl: Device)
    requires gl.Valid()
    modifies gl
    ensures gl.Valid() && gl.live == old(gl.live) && gl.next == old(gl.next) && gl.SettingsUnchanged()
    ensures gl.log == old(gl.log) + [BindVertexArray(0), DepthMask(true)]
  {
    gl.Issue(BindVertexArray(0));
    gl.Issue(DepthMask(true));
  }

  /** Blending on and depth writes off, before the transparent items. */
  method BlendWithoutDepthWrites(gl: Device)
    requires gl.Valid()
    modifies gl
    ensures gl.Valid() && gl.live == old(gl.live) && gl.next == old(gl.next) && gl.SettingsUnchanged()
    ensures gl.log == old(gl.log) + ([Enable(Blend)] + [DepthMask(false)])
  {
    gl.Issue(Enable(Blend));
    gl.Issue(DepthMask(false));
  }

  /** Depth writes back on, the vertex array and the framebuffer unbound, after the transparent items. */
  method EndScenePass(gl: Device)
    requires gl.Valid()
    modifies gl
    ensures gl.Valid() && gl.live == old(gl.live) && gl.next == old(gl.next) && gl.statusQueue == old(gl.statusQueue)
    ensures gl.viewport == old(gl.viewport) && gl.clearColor == old(gl.clearColor) && gl.boundFramebuffer == 0
    ensures gl.log == old(gl.log) + ([DepthMask(true)] + [BindVertexArray(0), BindFramebuffer(0)])
  {
    gl.Issue(DepthMask(true));
    gl.Issue(BindVertexArray(0));
    gl.Emit(BindFramebuffer(0));
  }

  /** One `if (enable...)` block of `runPostProcessing`: the pass for `e` when it is on, nothing otherwise. */
  method MaybeStage(gl: Device, s: Settings, on: bool, e: Effect, source: Handle, textures: seq<Handle>, framebuffers: seq<Handle>,
                    ghost done: seq<Effect>, ghost start: seq<Event>, current: Handle, ping: nat)
    returns (next: Handle, nextPing: nat)
    requires gl.Valid() && s.viewportSize.x != 0 && s.viewportSize.y != 0 && |textures| == 2 && |framebuffers| == 2
    requires current == Output(done, source, textures) && ping == |done| % 2
    requires gl.log == start + PassesEvents(s, Passes(done, source, textures), framebuffers)
    modifies gl
    ensures gl.Valid() && gl.live == old(gl.live) && gl.next == old(gl.next) && gl.statusQueue == old(gl.statusQueue)
    ensures gl.clearColor == old(gl.clearColor)
    ensures next == Output(done + Enabled(on, e), source, textures) && nextPing == |done + Enabled(on, e)| % 2
    ensures gl.log == start + PassesEvents(s, Passes(done + Enabled(on, e), source, textures), framebuffers)
  {
    if on {
      next, nextPing := Stage(gl, s, e, source, textures, framebuffers, done, start, current, ping);
    } else {
      assert done + Enabled(on, e) == done;
      next, nextPing := current, ping;
    }
  }

  /**
   * The effect passes of `runPostProcessing`, each only when enabled,
   * returning the cursor the gamma pass samples.
   */
  method EffectPasses(gl: Device, s: Settings, source: Handle, textures: seq<Handle>, framebuffers: seq<Handle>)
    returns (current: Handle)
    requires gl.Valid() && s.viewportSize.x != 0 && s.viewportSize.y != 0 && |textures| == 2 && |framebuffers| == 2
    modifies gl
    ensures gl.Valid() && gl.live == old(gl.live) && gl.next == old(gl.next) && gl.statusQueue == old(gl.statusQueue)
    ensures gl.clearColor == old(gl.clearColor)
    ensures current == Output(Stages(s.enableChromatic, s.enableVignette, s.enableGrain), source, textures)
    ensures gl.log == old(gl.log) + PassesEvents(s, Passes(Stages(s.enableChromatic, s.enableVignette, s.enableGrain), source, textures), framebuffers)
  {
    current := source;
    var ping := 0;
    ghost var log0 := gl.log;
    assert gl.log == log0 + PassesEvents(s, Passes([], source, textures), framebuffers);
    current, ping := MaybeStage(gl, s, s.enableChromatic, Chromatic, source, textures, framebuffers, [], log0, current, ping);
    assert [] + Enabled(s.enableChromatic, Chromatic) == Enabled(s.enableChromatic, Chromatic);
    ghost var done := Enabled(s.enableChromatic, Chromatic);
    current, ping := MaybeStage(gl, s, s.enableVignette, Vignette, source, textures, framebuffers, done, log0, current, ping);
    done := done + Enabled(s.enableVignette, Vignette);
    current, ping := MaybeStage(gl, s, s.enableGrain, Grain, source, textures, framebuffers, done, log0, current, ping);
    done := done + Enabled(s.enableGrain, Grain);
    assert done == Stages(s.enableChromatic, s.enableVignette, s.enableGrain);
  }

  // ---------------------------------------------------------------------
  // The demo
  // ---------------------------------------------------------------------

  class DepthPostDemo {
    var opaqueItems: seq<RenderItem>
    var transparentItems: seq<RenderItem>
    var opaqueOrder: seq<nat>
    var transparentOrder: seq<nat>
    var animatedTransparent: seq<AnimatedLayer>

    var drawOrder: DrawOrder
    /** The outputs the shuffle's generator has still to give; the generator persists across frames. */
    var rng: seq<nat>

    var whiteTexture: Handle

    var spriteShader: CompiledShader
    var chromaticShader: CompiledShader
    var vignetteShader: CompiledShader
    var grainShader: CompiledShader
    var gammaShader: CompiledShader

    var quadVao: Handle
    var quadVbo: Handle
    var quadEbo: Handle
    var fullscreenVao: Handle

    var msaaTarget: MsaaTarget
    var resolveTarget: ColorTarget
    /** The two ping-pong targets of the post chain. */
    var postTargets: seq<ColorTarget>

    var viewportSize: IVec2

    var enableChromatic: bool
    var enableVignette: bool
    var enableGrain: bool
    var enableGamma: bool

    var chromaticStrength: real
    var vignetteIntensity: real
    var vignetteRadius: real
    var vignetteSoftness: real
    var grainIntensity: real
    var scanlineIntensity: real
    var gammaValue: real

    var timeSeconds: real

    /**
     * Two post targets; both orders hold only valid indices into their item
     * lists (that they rearrange those indices is what `UpdateDrawOrder`
     * promises); every animated layer names a transparent item.
     */
    ghost predicate Valid()
      reads this
    {
      && |postTargets| == 2
      && InRange(opaqueOrder, |opaqueItems|) && InRange(transparentOrder, |transparentItems|)
      && LayersValid()
    }

    /** Every animated layer names a transparent item. */
    ghost predicate LayersValid()
      reads this
    {
      forall k :: 0 <= k < |animatedTransparent| ==> animatedTransparent[k].index < |transparentItems|
    }

    /**
     * The member defaults: empty lists, front-to-back order, no GPU objects,
     * fresh render targets, a zero viewport, every effect on and gamma 2.2.
     * `seed` is what the generator's random seed makes it yield.
     */
    constructor (seed: seq<nat>)
      ensures Valid()
      ensures opaqueItems == [] && transparentItems == [] && opaqueOrder == [] && transparentOrder == [] && animatedTransparent == []
      ensures drawOrder == FrontToBack && rng == seed
      ensures whiteTexture == 0 && quadVao == 0 && quadVbo == 0 && quadEbo == 0 && fullscreenVao == 0
      ensures spriteShader == NoShader && chromaticShader == NoShader && vignetteShader == NoShader
      ensures grainShader == NoShader && gammaShader == NoShader
      ensures msaaTarget == FreshMsaaTarget && resolveTarget == NoColorTarget && postTargets == [NoColorTarget, NoColorTarget]
      ensures viewportSize == IVec2(0, 0)
      ensures enableChromatic && enableVignette && enableGrain && enableGamma
      ensures chromaticStrength == 2.0 && vignetteIntensity == 0.35 && vignetteRadius == 0.75 && vignetteSoftness == 0.35
      ensures grainIntensity == 0.08 && scanlineIntensity == 0.12 && gammaValue == 2.2
      ensures timeSeconds == 0.0
    {
      opaqueItems := [];
      transparentItems := [];
      opaqueOrder := [];
      transparentOrder := [];
      animatedTransparent := [];
      drawOrder := FrontToBack;
      rng := seed;
      whiteTexture := 0;
      spriteShader := NoShader;
      chromaticShader := NoShader;
      vignetteShader := NoShader;
      grainShader := NoShader;
      gammaShader := NoShader;
      quadVao := 0;
      quadVbo := 0;
      quadEbo := 0;
      fullscreenVao := 0;
      msaaTarget := FreshMsaaTarget;
      resolveTarget := NoColorTarget;
      postTargets := [NoColorTarget, NoColorTarget];
      viewportSize := IVec2(0, 0);
      enableChromatic := true;
      enableVignette := true;
      enableGrain := true;
      enableGamma := true;
      chromaticStrength := 2.0;
      vignetteIntensity := 0.35;
      vignetteRadius := 0.75;
      vignetteSoftness := 0.35;
      grainIntensity := 0.08;
      scanlineIntensity := 0.12;
      gammaValue := 2.2;
      timeSeconds := 0.0;
    }

    // -- geometry and the white texture --

    /** `createQuad`: three fresh objects, the quad's vertex array and its two buffers. */
    method CreateQuad(gl: Device)
      requires gl.Valid()
      modifies this`quadVao, this`quadVbo, this`quadEbo, gl
      ensures gl.Valid() && gl.SettingsUnchanged()
      ensures quadVao !in old(gl.live) && quadVbo !in old(gl.live) && quadEbo !in old(gl.live)
      ensures 0 != quadVao && 0 != quadVbo && 0 != quadEbo && quadVao != quadVbo && quadVbo != quadEbo && quadVao != quadEbo
      ensures gl.live == old(gl.live) + {quadVao, quadVbo, quadEbo}
      ensures gl.log == old(gl.log) + QuadEvents(quadVao, quadVbo, quadEbo)
    {
      ghost var log0 := gl.log;
      var vao := gl.Gen(VertexArrayObject);
      gl.Issue(BindVertexArray(vao));
      var vbo := gl.Gen(BufferObject);
      assert vao in gl.live;
      gl.Issue(BindArrayBuffer(vbo));
      var ebo := gl.Gen(BufferObject);
      assert vao in gl.live && vbo in gl.live;
      gl.Issue(BindIndexBuffer(ebo));
      ghost var log1 := gl.log;
      assert log1 == log0 + [Created(VertexArrayObject, vao), BindVertexArray(vao), Created(BufferObject, vbo),
                             BindArrayBuffer(vbo), Created(BufferObject, ebo), BindIndexBuffer(ebo)];
      gl.Issue(EnableAttribArray(0));
      gl.Issue(AttribPointer(0, Float2, 16, 0));
      gl.Issue(EnableAttribArray(1));
      gl.Issue(AttribPointer(1, Float2, 16, 8));
      gl.Issue(BindVertexArray(0));
      assert gl.log == log1 + [EnableAttribArray(0), AttribPointer(0, Float2, 16, 0), EnableAttribArray(1),
                               AttribPointer(1, Float2, 16, 8), BindVertexArray(0)];
      quadVao, quadVbo, quadEbo := vao, vbo, ebo;
    }

    /** `createFullscreenTriangle`: a fresh, empty vertex array (the triangle's corners come from the vertex index). */
    method CreateFullscreenTriangle(gl: Device)
      requires gl.Valid()
      modifies this`fullscreenVao, gl
      ensures gl.Valid() && gl.SettingsUnchanged()
      ensures fullscreenVao != 0 && fullscreenVao !in old(gl.live) && gl.live == old(gl.live) + {fullscreenVao}
      ensures gl.log == old(gl.log) + FullscreenVaoEvents(fullscreenVao)
    {
      fullscreenVao := gl.Gen(VertexArrayObject);
      gl.Issue(BindVertexArray(fullscreenVao));
      gl.Issue(BindVertexArray(0));
    }

    /** `destroyGeometry`: each non-zero geometry handle is deleted and zeroed. */
    method DestroyGeometry(gl: Device)
      requires gl.Valid()
      modifies this`quadVao, this`quadVbo, this`quadEbo, this`fullscreenVao, gl
      ensures gl.Valid() && gl.SettingsUnchanged()
      ensures quadVao == 0 && quadVbo == 0 && quadEbo == 0 && fullscreenVao == 0
      ensures gl.live == old(gl.live) - {old(quadVao), old(quadVbo), old(quadEbo), old(fullscreenVao)}
      ensures gl.log == old(gl.log) + GeometryReleaseEvents(old(quadVao), old(quadVbo), old(quadEbo), old(fullscreenVao))
    {
      ghost var log0 := gl.log;
      if quadEbo != 0 {
        gl.Delete(BufferObject, quadEbo);
        quadEbo := 0;
      }
      ghost var log1 := gl.log;
      if quadVbo != 0 {
        gl.Delete(BufferObject, quadVbo);
        quadVbo := 0;
      }
      ghost var log2 := gl.log;
      if quadVao != 0 {
        gl.Delete(VertexArrayObject, quadVao);
        quadVao := 0;
      }
      ghost var log3 := gl.log;
      if fullscreenVao != 0 {
        gl.Delete(VertexArrayObject, fullscreenVao);
        fullscreenVao := 0;
      }
      ghost var a := if old(quadEbo) != 0 then [Deleted(BufferObject, old(quadEbo))] else [];
      ghost var b := if old(quadVbo) != 0 then [Deleted(BufferObject, old(quadVbo))] else [];
      ghost var c := if old(quadVao) != 0 then [Deleted(VertexArrayObject, old(quadVao))] else [];
      ghost var d := if old(fullscreenVao) != 0 then [Deleted(VertexArrayObject, old(fullscreenVao))] else [];
      assert log1 == log0 + a && log2 == log1 + b && log3 == log2 + c && gl.log == log3 + d;
      AppendAssoc(log0, a, b);
      AppendAssoc(log0, a + b, c);
      AppendAssoc(log0, a + b + c, d);
    }

    /** `createWhiteTexture`: a fresh 1x1 texture. */
    method CreateWhiteTexture(gl: Device)
      requires gl.Valid()
      modifies this`whiteTexture, gl
      ensures gl.Valid() && gl.SettingsUnchanged()
      ensures whiteTexture != 0 && whiteTexture !in old(gl.live) && gl.live == old(gl.live) + {whiteTexture}
      ensures gl.log == old(gl.log) + WhiteTextureEvents(whiteTexture)
    {
      whiteTexture := gl.Gen(TextureObject);
      gl.Issue(AllocateStorage(whiteTexture, IVec2(1, 1), 0));
    }

    /** `destroyWhiteTexture`: deleted and zeroed if non-zero. */
    method DestroyWhiteTexture(gl: Device)
      requires gl.Valid()
      modifies this`whiteTexture, gl
      ensures gl.Valid() && gl.SettingsUnchanged()
      ensures whiteTexture == 0 && gl.live == old(gl.live) - {old(whiteTexture)}
      ensures gl.log == old(gl.log) + (if old(whiteTexture) != 0 then [Deleted(TextureObject, old(whiteTexture))] else [])
    {
      if whiteTexture != 0 {
        gl.Delete(TextureObject, whiteTexture);
        whiteTexture := 0;
      }
    }

    // -- render targets --

    /**
     * `verifyFramebufferComplete(caption)`: reads the next status; returns
     * normally on `GL_FRAMEBUFFER_COMPLETE` and otherwise throws with the
     * caption and the status in hex. The error log line is not part of this
     * model.
     */
    method VerifyFramebufferComplete(gl: Device, caption: string) returns (o: Outcome)
      modifies gl
      ensures o == StatusOutcome(caption, NextStatus(old(gl.statusQueue)))
      ensures gl.statusQueue == RestStatus(old(gl.statusQueue))
      ensures gl.live == old(gl.live) && gl.next == old(gl.next) && gl.log == old(gl.log)
      ensures gl.viewport == old(gl.viewport) && gl.clearColor == old(gl.clearColor) && gl.boundFramebuffer == old(gl.boundFramebuffer)
    {
      var status := gl.CheckFramebufferStatus();
      if status == FramebufferComplete {
        return Done;
      }
      o := Thrown(caption + " incomplete: 0x" + Hex(status));
    }

    /**
     * `createColorTarget(size)`: a fresh framebuffer with a fresh texture of
     * `size` as its colour attachment, checked for completeness. When the
     * check throws, the framebuffer stays bound and the two new objects are
     * returned to no one.
     */
    method CreateColorTarget(gl: Device, size: IVec2) returns (t: ColorTarget, o: Outcome)
      requires gl.Valid()
      modifies gl
      ensures gl.Valid() && gl.viewport == old(gl.viewport) && gl.clearColor == old(gl.clearColor)
      ensures t.size == size && t.framebuffer != 0 && t.texture != 0 && t.framebuffer != t.texture
      ensures t.framebuffer !in old(gl.live) && t.texture !in old(gl.live)
      ensures gl.live == old(gl.live) + {t.framebuffer, t.texture}
      ensures o == StatusOutcome("color target", NextStatus(old(gl.statusQueue)))
      ensures gl.statusQueue == RestStatus(old(gl.statusQueue))
      ensures gl.log == old(gl.log) + ColorTargetEvents(t) + (if o.Done? then [BindFramebuffer(0)] else [])
      ensures gl.boundFramebuffer == if o.Done? then 0 else t.framebuffer
    {
      t := AllocateColorTarget(gl, size);
      o := VerifyFramebufferComplete(gl, "color target");
      if o.Done? {
        gl.Emit(BindFramebuffer(0));
      }
    }

    /**
     * The creating half of `createColorTarget`: a new framebuffer, bound, and
     * a new texture of `size` attached to it as the only colour output.
     */
    method AllocateColorTarget(gl: Device, size: IVec2) returns (t: ColorTarget)
      requires gl.Valid()
      modifies gl
      ensures gl.Valid() && gl.viewport == old(gl.viewport) && gl.clearColor == old(gl.clearColor)
      ensures gl.statusQueue == old(gl.statusQueue) && gl.boundFramebuffer == t.framebuffer
      ensures t.size == size && t.framebuffer != 0 && t.texture != 0 && t.framebuffer != t.texture
      ensures t.framebuffer !in old(gl.live) && t.texture !in old(gl.live)
      ensures gl.live == old(gl.live) + {t.framebuffer, t.texture}
      ensures gl.log == old(gl.log) + ColorTargetEvents(t)
    {
      var framebuffer := gl.Gen(FramebufferObject);
      gl.Emit(BindFramebuffer(framebuffer));
      var texture := gl.Gen(TextureObject);
      gl.Issue(AllocateStorage(texture, size, 0));
      gl.Issue(AttachColor(framebuffer, texture));
      gl.Issue(DrawToColor0);
      t := ColorTarget(framebuffer, texture, size);
    }

    /** `destroyColorTarget`: texture then framebuffer deleted if non-zero; the target becomes empty. */
    method DestroyColorTarget(gl: Device, t: ColorTarget) returns (cleared: ColorTarget)
      requires gl.Valid()
      modifies gl
      ensures gl.Valid() && gl.SettingsUnchanged()
      ensures cleared == NoColorTarget
      ensures gl.live == old(gl.live) - TargetHandles(t)
      ensures gl.log == old(gl.log) + ReleaseEvents(t)
    {
      if t.texture != 0 {
        gl.Delete(TextureObject, t.texture);
      }
      if t.framebuffer != 0 {
        gl.Delete(FramebufferObject, t.framebuffer);
      }
      cleared := NoColorTarget;
    }

    /**
     * `destroyRenderTargets`: the resolve target, both post targets, then the
     * MSAA renderbuffers and framebuffer, each handle deleted only if
     * non-zero and then zeroed.
     */
    method DestroyRenderTargets(gl: Device)
      requires gl.Valid() && |postTargets| == 2
      modifies this`resolveTarget, this`postTargets, this`msaaTarget, gl
      ensures gl.Valid() && gl.SettingsUnchanged()
      ensures resolveTarget == NoColorTarget && postTargets == [NoColorTarget, NoColorTarget]
      ensures msaaTarget == Cleared(old(msaaTarget))
      ensures gl.live == old(gl.live) - AllTargetHandles(old(resolveTarget), old(postTargets), old(msaaTarget))
      ensures gl.log == old(gl.log) + DestroyEvents(old(resolveTarget), old(postTargets), old(msaaTarget))
    {
      ghost var log0 := gl.log;
      resolveTarget := DestroyColorTarget(gl, resolveTarget);
      ghost var log1 := gl.log;
      var post0 := DestroyColorTarget(gl, postTargets[0]);
      ghost var log2 := gl.log;
      var post1 := DestroyColorTarget(gl, postTargets[1]);
      ghost var log3 := gl.log;
      postTargets := [post0, post1];
      ReleaseMsaa(gl);
      AppendAssoc(log0, ReleaseEvents(old(resolveTarget)), ReleaseEvents(old(postTargets)[0]));
      AppendAssoc(log0, ReleaseEvents(old(resolveTarget)) + ReleaseEvents(old(postTargets)[0]), ReleaseEvents(old(postTargets)[1]));
      AppendAssoc(log0, ReleaseEvents(old(resolveTarget)) + ReleaseEvents(old(postTargets)[0]) + ReleaseEvents(old(postTargets)[1]),
                  MsaaReleaseEvents(old(msaaTarget)));
    }

    /** The MSAA half of `destroyRenderTargets`. */
    method ReleaseMsaa(gl: Device)
      requires gl.Valid()
      modifies this`msaaTarget, gl
      ensures gl.Valid() && gl.SettingsUnchanged()
      ensures msaaTarget == Cleared(old(msaaTarget))
      ensures gl.live == old(gl.live) - MsaaHandles(old(msaaTarget))
      ensures gl.log == old(gl.log) + MsaaReleaseEvents(old(msaaTarget))
    {
      ghost var log0 := gl.log;
      if msaaTarget.colorBuffer != 0 {
        gl.Delete(RenderbufferObject, msaaTarget.colorBuffer);
        msaaTarget := msaaTarget.(colorBuffer := 0);
      }
      ghost var log1 := gl.log;
      if msaaTarget.depthBuffer != 0 {
        gl.Delete(RenderbufferObject, msaaTarget.depthBuffer);
        msaaTarget := msaaTarget.(depthBuffer := 0);
      }
      ghost var log2 := gl.log;
      if msaaTarget.framebuffer != 0 {
        gl.Delete(FramebufferObject, msaaTarget.framebuffer);
        msaaTarget := msaaTarget.(framebuffer := 0);
      }
      ghost var m := old(msaaTarget);
      ghost var a := if m.colorBuffer != 0 then [Deleted(RenderbufferObject, m.colorBuffer)] else [];
      ghost var b := if m.depthBuffer != 0 then [Deleted(RenderbufferObject, m.depthBuffer)] else [];
      ghost var c := if m.framebuffer != 0 then [Deleted(FramebufferObject, m.framebuffer)] else [];
      assert log1 == log0 + a && log2 == log1 + b && gl.log == log2 + c;
      AppendAssoc(log0, a, b);
      AppendAssoc(log0, a + b, c);
    }
 
    /**
     * The MSAA half of `rebuildRenderTargets`: the sample count clamped into
     * [1, max(1, GL_MAX_SAMPLES)], the size set, then a fresh framebuffer
     * with fresh colour and depth-stencil renderbuffers of that size and
     * sample count, checked for completeness and unbound.
     */
    method CreateMsaaTarget(gl: Device, size: IVec2) returns (o: Outcome)
      requires gl.Valid()
      modifies this`msaaTarget, gl
      ensures gl.Valid() && gl.viewport == old(gl.viewport) && gl.clearColor == old(gl.clearColor)
      ensures msaaTarget.size == size && msaaTarget.samples == SampleCount(old(msaaTarget.samples), gl.maxSamples)
      ensures msaaTarget.framebuffer != 0 && msaaTarget.colorBuffer != 0 && msaaTarget.depthBuffer != 0
      ensures MsaaHandles(msaaTarget) !! old(gl.live)
      ensures gl.live == old(gl.live) + MsaaHandles(msaaTarget)
      ensures o == StatusOutcome("MSAA framebuffer", NextStatus(old(gl.statusQueue)))
      ensures gl.statusQueue == RestStatus(old(gl.statusQueue))
      ensures gl.log == old(gl.log) + MsaaEvents(msaaTarget) + (if o.Done? then MsaaUnbind else [])
    {
      var samples := SampleCount(msaaTarget.samples, gl.maxSamples);
      ghost var log0 := gl.log;
      var framebuffer := gl.Gen(FramebufferObject);
      gl.Emit(BindFramebuffer(framebuffer));
      var color := AllocateRenderbuffer(gl, size, samples);
      gl.Issue(AttachColor(framebuffer, color));
      var depth := AllocateRenderbuffer(gl, size, samples);
      gl.Issue(AttachDepth(framebuffer, depth));
      gl.Issue(DrawToColor0);
      msaaTarget := MsaaTarget(framebuffer, color, depth, size, samples);
      assert gl.log == log0 + MsaaEvents(msaaTarget);
      o := VerifyFramebufferComplete(gl, "MSAA framebuffer");
      if o.Done? {
        gl.Emit(BindFramebuffer(0));
        gl.Issue(BindRenderbuffer(0));
      }
    }

    /**
     * The colour half of `rebuildRenderTargets`: the resolve target, then the
     * two post targets, each stored only once its check passes. When a check
     * throws, the fields from that one on keep what they held.
     */
    method CreateColorTargets(gl: Device, size: IVec2) returns (o: Outcome)
      requires gl.Valid() && |postTargets| == 2
      modifies this`resolveTarget, this`postTargets, gl
      ensures gl.Valid() && |postTargets| == 2
      ensures gl.viewport == old(gl.viewport) && gl.clearColor == old(gl.clearColor)
      ensures o == ChecksOutcome(RebuildCaptions[1..], old(gl.statusQueue))
      ensures old(gl.log) <= gl.log
      ensures Passed(old(gl.statusQueue), 3) < 1 ==> resolveTarget == old(resolveTarget)
      ensures Passed(old(gl.statusQueue), 3) < 2 ==> postTargets[0] == old(postTargets)[0]
      ensures Passed(old(gl.statusQueue), 3) < 3 ==> postTargets[1] == old(postTargets)[1]
      ensures Passed(old(gl.statusQueue), 3) >= 1 ==> resolveTarget.size == size && TargetHandles(resolveTarget) !! old(gl.live)
      ensures Passed(old(gl.statusQueue), 3) >= 2 ==> postTargets[0].size == size && TargetHandles(postTargets[0]) !! old(gl.live)
      ensures o.Done? ==> postTargets[1].size == size
      ensures o.Done? ==> gl.log == old(gl.log) + CreatedTargetEvents(resolveTarget) + CreatedTargetEvents(postTargets[0])
                                    + CreatedTargetEvents(postTargets[1])
      ensures o.Done? ==> TargetHandles(resolveTarget) + TargetHandles(postTargets[0]) + TargetHandles(postTargets[1]) !! old(gl.live)
      ensures o.Done? ==> gl.live == old(gl.live) + TargetHandles(resolveTarget) + TargetHandles(postTargets[0])
                                     + TargetHandles(postTargets[1])
    {
      ghost var q0 := gl.statusQueue;
      assert RebuildCaptions[1..] == ["color target"] + RebuildCaptions[2..];
      var resolve, o1 := CreateColorTarget(gl, size);
      assert ChecksOutcome(RebuildCaptions[1..], q0) == if o1.Thrown? then o1 else ChecksOutcome(RebuildCaptions[2..], gl.statusQueue);
      assert Passed(q0, 3) == if o1.Done? then 1 + Passed(gl.statusQueue, 2) else 0;
      if o1.Thrown? {
        return o1;
      }
      resolveTarget := resolve;
      o := CreatePostTargets(gl, size);
    }

    /**
     * The post half of `CreateColorTargets`: the two post targets, the second
     * created only once the first's check passes.
     */
    method CreatePostTargets(gl: Device, size: IVec2) returns (o: Outcome)
      requires gl.Valid() && |postTargets| == 2
      modifies this`postTargets, gl
      ensures gl.Valid() && |postTargets| == 2
      ensures gl.viewport == old(gl.viewport) && gl.clearColor == old(gl.clearColor)
      ensures o == ChecksOutcome(RebuildCaptions[2..], old(gl.statusQueue))
      ensures old(gl.log) <= gl.log
      ensures Passed(old(gl.statusQueue), 2) < 1 ==> postTargets[0] == old(postTargets)[0]
      ensures Passed(old(gl.statusQueue), 2) < 2 ==> postTargets[1] == old(postTargets)[1]
      ensures Passed(old(gl.statusQueue), 2) >= 1 ==> postTargets[0].size == size && TargetHandles(postTargets[0]) !! old(gl.live)
      ensures o.Done? ==> postTargets[1].size == size
      ensures o.Done? ==> gl.log == old(gl.log) + CreatedTargetEvents(postTargets[0]) + CreatedTargetEvents(postTargets[1])
      ensures o.Done? ==> TargetHandles(postTargets[0]) + TargetHandles(postTargets[1]) !! old(gl.live)
      ensures o.Done? ==> gl.live == old(gl.live) + TargetHandles(postTargets[0]) + TargetHandles(postTargets[1])
    {
      ghost var q1 := gl.statusQueue;
      ghost var captions := RebuildCaptions[2..];
      assert captions == ["color target", "color target"];
      var post0, o2 := CreateColorTarget(gl, size);
      assert ChecksOutcome(captions, q1) == if o2.Thrown? then o2 else ChecksOutcome(captions[1..], gl.statusQueue);
      assert Passed(q1, 2) == if o2.Done? then 1 + Passed(gl.statusQueue, 1) else 0;
      if o2.Thrown? {
        return o2;
      }
      postTargets := postTargets[0 := post0];
      ghost var q2 := gl.statusQueue;
      var post1, o3 := CreateColorTarget(gl, size);
      assert ChecksOutcome(captions[1..], q2) == if o3.Thrown? then o3 else ChecksOutcome([], gl.statusQueue);
      assert Passed(q2, 1) == if o3.Done? then 1 else 0;
      if o3.Done? {
        postTargets := postTargets[1 := post1];
      }
      o := o3;
    }

    /**
     * The colour targets after a rebuild whose first `passed` framebuffer
     * checks succeeded (the MSAA one first): each target whose own check
     * passed has `size`, and every later one is still the empty target.
     */
    ghost predicate RebuiltUpTo(passed: nat, size: IVec2)
      reads this`resolveTarget, this`postTargets
      requires |postTargets| == 2
    {
      && (if passed >= 2 then resolveTarget.size == size else resolveTarget == NoColorTarget)
      && (if passed >= 3 then postTargets[0].size == size else postTargets[0] == NoColorTarget)
      && (passed >= 4 || postTargets[1] == NoColorTarget)
    }

    /**
     * The render targets and the device after `rebuildRenderTargets(size)`,
     * given the targets `resolve0`, `posts0` and `msaa0`, the driver's
     * statuses `q0`, the log `log0` and the live names `live0` before it: the
     * MSAA target at `size`; the colour targets as `RebuiltUpTo` says; the old
     * targets' deletions logged first; and, when every check passed, exactly
     * the rebuild's calls after them and the new targets' fresh names in
     * place of the old ones.
     */
    ghost predicate RebuiltFrom(gl: Device, size: IVec2, q0: seq<nat>, log0: seq<Event>, live0: set<Handle>,
                                resolve0: ColorTarget, posts0: seq<ColorTarget>, msaa0: MsaaTarget)
      reads this`resolveTarget, this`postTargets, this`msaaTarget, gl
      requires |postTargets| == 2 && |posts0| == 2
    {
      && msaaTarget.size == size && msaaTarget.samples == SampleCount(msaa0.samples, gl.maxSamples)
      && RebuiltUpTo(Passed(q0, 4), size)
      && log0 + DestroyEvents(resolve0, posts0, msaa0) <= gl.log
      && (ChecksOutcome(RebuildCaptions, q0).Done? ==>
            && gl.log == log0 + DestroyEvents(resolve0, posts0, msaa0)
                         + RebuildEvents(msaaTarget, resolveTarget, postTargets[0], postTargets[1])
            && AllTargetHandles(resolveTarget, postTargets, msaaTarget) !! live0 - AllTargetHandles(resolve0, posts0, msaa0)
            && gl.live == (live0 - AllTargetHandles(resolve0, posts0, msaa0)) + AllTargetHandles(resolveTarget, postTargets, msaaTarget))
    }

    /**
     * `rebuildRenderTargets(size)`: destroys the old targets first, then
     * creates the MSAA target and the three colour targets at `size`,
     * stopping at the first framebuffer the driver reports incomplete. A
     * colour target whose check throws is never stored in its field, which
     * keeps the empty target `destroyRenderTargets` left there.
     */
    method RebuildRenderTargets(gl: Device, size: IVec2) returns (o: Outcome)
      requires gl.Valid() && |postTargets| == 2
      modifies this`resolveTarget, this`postTargets, this`msaaTarget, gl
      ensures gl.Valid() && |postTargets| == 2
      ensures gl.viewport == old(gl.viewport) && gl.clearColor == old(gl.clearColor)
      ensures o == ChecksOutcome(RebuildCaptions, old(gl.statusQueue))
      ensures msaaTarget.size == size && msaaTarget.samples == SampleCount(old(msaaTarget.samples), gl.maxSamples)
      ensures old(gl.log) + DestroyEvents(old(resolveTarget), old(postTargets), old(msaaTarget)) <= gl.log
      ensures o.Done? ==> resolveTarget.size == size && postTargets[0].size == size && postTargets[1].size == size
      ensures RebuiltUpTo(Passed(old(gl.statusQueue), 4), size)
      ensures o.Done? ==> gl.log == old(gl.log) + DestroyEvents(old(resolveTarget), old(postTargets), old(msaaTarget))
                                    + RebuildEvents(msaaTarget, resolveTarget, postTargets[0], postTargets[1])
      ensures o.Done? ==> AllTargetHandles(resolveTarget, postTargets, msaaTarget)
                          !! old(gl.live) - AllTargetHandles(old(resolveTarget), old(postTargets), old(msaaTarget))
      ensures o.Done? ==> gl.live == (old(gl.live) - AllTargetHandles(old(resolveTarget), old(postTargets), old(msaaTarget)))
                                     + AllTargetHandles(resolveTarget, postTargets, msaaTarget)
    {
      DestroyRenderTargets(gl);
      o := CreateRenderTargets(gl, size);
      if o.Done? {
        AppendAssoc(old(gl.log), DestroyEvents(old(resolveTarget), old(postTargets), old(msaaTarget)),
                    RebuildEvents(msaaTarget, resolveTarget, postTargets[0], postTargets[1]));
      }
    }

    /**
     * The creating half of `rebuildRenderTargets`: the MSAA target, then the
     * three colour targets, stopping at the first incomplete framebuffer.
     */
    method CreateRenderTargets(gl: Device, size: IVec2) returns (o: Outcome)
      requires gl.Valid() && |postTargets| == 2
      modifies this`resolveTarget, this`postTargets, this`msaaTarget, gl
      ensures gl.Valid() && |postTargets| == 2
      ensures gl.viewport == old(gl.viewport) && gl.clearColor == old(gl.clearColor)
      ensures o == ChecksOutcome(RebuildCaptions, old(gl.statusQueue))
      ensures msaaTarget.size == size && msaaTarget.samples == SampleCount(old(msaaTarget.samples), gl.maxSamples)
      ensures old(gl.log) <= gl.log
      ensures o.Done? ==> resolveTarget.size == size && postTargets[0].size == size && postTargets[1].size == size
      ensures Passed(old(gl.statusQueue), 4) < 2 ==> resolveTarget == old(resolveTarget)
      ensures Passed(old(gl.statusQueue), 4) < 3 ==> postTargets[0] == old(postTargets)[0]
      ensures Passed(old(gl.statusQueue), 4) < 4 ==> postTargets[1] == old(postTargets)[1]
      ensures Passed(old(gl.statusQueue), 4) >= 2 ==> resolveTarget.size == size && TargetHandles(resolveTarget) !! old(gl.live)
      ensures Passed(old(gl.statusQueue), 4) >= 3 ==> postTargets[0].size == size && TargetHandles(postTargets[0]) !! old(gl.live)
      ensures o.Done? ==> gl.log == old(gl.log) + RebuildEvents(msaaTarget, resolveTarget, postTargets[0], postTargets[1])
      ensures o.Done? ==> AllTargetHandles(resolveTarget, postTargets, msaaTarget) !! old(gl.live)
      ensures o.Done? ==> gl.live == old(gl.live) + AllTargetHandles(resolveTarget, postTargets, msaaTarget)
    {
      ghost var log0, q0 := gl.log, gl.statusQueue;
      o := CreateMsaaTarget(gl, size);
      assert Passed(q0, 4) == if o.Done? then 1 + Passed(gl.statusQueue, 3) else 0;
      if o.Thrown? {
        return;
      }
      ghost var head := MsaaEvents(msaaTarget) + MsaaUnbind;
      assert gl.log == log0 + head;
      ghost var m := msaaTarget;
      o := CreateColorTargets(gl, size);
      if o.Done? {
        ghost var rest := CreatedTargetEvents(resolveTarget) + CreatedTargetEvents(postTargets[0]) + CreatedTargetEvents(postTargets[1]);
        assert gl.log == log0 + head + rest;
        AppendAssoc(log0, head, rest);
        ghost var c0, c1 := CreatedTargetEvents(resolveTarget), CreatedTargetEvents(postTargets[0]);
        AppendAssoc(head, c0 + c1, CreatedTargetEvents(postTargets[1]));
        AppendAssoc(head, c0, c1);
      }
    }

    // -- the scene --

    /**
     * `buildScene(size)`: empties the three lists, then pushes the opaque
     * backdrop, the rows of far and mid buildings, the foreground and the
     * 140 panels, and the transparent fog, glass and beams. Each fog layer's
     * animation records the transparent list's length just before its push.
     * `sin` shades the panels.
     */
    method BuildScene(size: IVec2, sin: real -> real)
      modifies this`opaqueItems, this`transparentItems, this`animatedTransparent
      ensures opaqueItems == OpaqueLayout(size, whiteTexture, sin)
      ensures transparentItems == TransparentLayout(size, whiteTexture)
      ensures animatedTransparent == AnimatedLayout(size)
      ensures |transparentItems| == 5 && |animatedTransparent| == 2
      ensures WellFormed(opaqueItems, whiteTexture) && WellFormed(transparentItems, whiteTexture)
      ensures LayersValid()
    {
      opaqueItems := [];
      transparentItems := [];
      animatedTransparent := [];
      var w := size.x as real;
      var h := size.y as real;
      PushOpaque(w, h, sin);
      PushTransparent(w, h);
      OpaqueLayoutSpec(size, whiteTexture, sin);
      TransparentLayoutSpec(size, whiteTexture);
    }

    /** The opaque half of `buildScene`, onto an empty list. */
    method PushOpaque(w: real, h: real, sin: real -> real)
      requires opaqueItems == []
      modifies this`opaqueItems
      ensures opaqueItems == Backdrop(w, h, whiteTexture) + FarRow(w, h, whiteTexture) + MidRow(w, h, whiteTexture)
                             + Foreground(w, h, whiteTexture) + Panels(w, h, whiteTexture, sin)
    {
      PushBackdrop(w, h);
      PushFarRow(w, h);
      PushMidRow(w, h);
      PushForeground(w, h);
      PushPanels(w, h, sin);
    }

    /** The sky, its lower half and the horizon glow, pushed in order. */
    method PushBackdrop(w: real, h: real)
      modifies this`opaqueItems
      ensures opaqueItems == old(opaqueItems) + Backdrop(w, h, whiteTexture)
    {
      var white := whiteTexture;
      opaqueItems := opaqueItems + [MakeItem(Vec2(w * 0.5, h * 0.75), Vec2(w, h * 0.5), 0.95, SkyTop, 0.0, white)];
      opaqueItems := opaqueItems + [MakeItem(Vec2(w * 0.5, h * 0.25), Vec2(w, h * 0.5), 0.90, SkyBottom, 0.0, white)];
      opaqueItems := opaqueItems + [MakeItem(Vec2(w * 0.5, h * 0.55), Vec2(w, h * 0.10), 0.88, HorizonGlow, 0.0, white)];
    }

    /** The ground, the two crates and the neon sign, pushed in order. */
    method PushForeground(w: real, h: real)
      modifies this`opaqueItems
      ensures opaqueItems == old(opaqueItems) + Foreground(w, h, whiteTexture)
    {
      var white := whiteTexture;
      opaqueItems := opaqueItems + [MakeItem(Vec2(w * 0.5, h * 0.10), Vec2(w, h * 0.20), 0.22, GroundColor, 0.0, white)];
      opaqueItems := opaqueItems + [MakeItem(Vec2(w * 0.72, h * 0.20), Vec2(w * 0.10, h * 0.10), 0.10, CrateColor, 0.08, white)];
      opaqueItems := opaqueItems + [MakeItem(Vec2(w * 0.82, h * 0.18), Vec2(w * 0.08, h * 0.08), 0.12, CrateColor, -0.05, white)];
      opaqueItems := opaqueItems + [MakeItem(Vec2(w * 0.67, h * 0.26), Vec2(w * 0.04, h * 0.14), 0.18, NeonColor, 0.0, white)];
    }

    /** The nine far buildings, pushed in order. */
    method PushFarRow(w: real, h: real)
      modifies this`opaqueItems
      ensures opaqueItems == old(opaqueItems) + FarRow(w, h, whiteTexture)
    {
      var white := whiteTexture;
      var i := 0;
      while i < FarCount
        invariant 0 <= i <= FarCount
        invariant opaqueItems == old(opaqueItems) + FarRow(w, h, white)[..i]
      {
        var bw := w * 0.08 + ((i % 3) as real) * w * 0.015;
        var bh := h * (0.20 + 0.18 * ((i % 4) as real) / 3.0);
        var x := (i as real + 0.5) * (w / FarCount as real);
        var building := MakeItem(Vec2(x, bh * 0.5), Vec2(bw, bh), 0.82, FarBuildings, 0.0, white);
        assert building == FarBuilding(i, w, h, white);
        opaqueItems := opaqueItems + [building];
        assert FarRow(w, h, white)[..i + 1] == FarRow(w, h, white)[..i] + [FarBuilding(i, w, h, white)];
        i := i + 1;
      }
      assert FarRow(w, h, white)[..FarCount] == FarRow(w, h, white);
    }

    /** The six mid buildings, pushed in order. */
    method PushMidRow(w: real, h: real)
      modifies this`opaqueItems
      ensures opaqueItems == old(opaqueItems) + MidRow(w, h, whiteTexture)
    {
      var white := whiteTexture;
      var i := 0;
      while i < MidCount
        invariant 0 <= i <= MidCount
        invariant opaqueItems == old(opaqueItems) + MidRow(w, h, white)[..i]
      {
        var bw := w * 0.10 + ((i % 2) as real) * w * 0.02;
        var bh := h * (0.28 + 0.20 * ((i % 3) as real) / 2.0);
        var x := (i as real + 0.8) * (w / MidCount as real);
        var building := MakeItem(Vec2(x, bh * 0.5), Vec2(bw, bh), 0.58, MidBuildings, 0.0, white);
        assert building == MidBuilding(i, w, h, white);
        opaqueItems := opaqueItems + [building];
        assert MidRow(w, h, white)[..i + 1] == MidRow(w, h, white)[..i] + [MidBuilding(i, w, h, white)];
        i := i + 1;
      }
      assert MidRow(w, h, white)[..MidCount] == MidRow(w, h, white);
    }

    /** The 140 panels, pushed in order. */
    method PushPanels(w: real, h: real, sin: real -> real)
      modifies this`opaqueItems
      ensures opaqueItems == old(opaqueItems) + Panels(w, h, whiteTexture, sin)
    {
      var white := whiteTexture;
      var i := 0;
      while i < PanelCount
        invariant 0 <= i <= PanelCount
        invariant opaqueItems == old(opaqueItems) + Panels(w, h, white, sin)[..i]
      {
        var t := (i as real) / ((PanelCount - 1) as real);
        var depth := 0.14 + 0.68 * t;
        var shade := 0.09 + 0.07 * sin(t * 3.14159);
        var offset := ((i % 5) as real) - 2.0;
        opaqueItems := opaqueItems + [MakeItem(Vec2(w * 0.22 + offset * 3.0, h * 0.48 + offset * 2.0), Vec2(w * 0.42, h * 0.78),
                                               depth, PackColor(shade, shade * 1.1, shade * 1.3, 1.0), 0.0, white)];
        assert Panels(w, h, white, sin)[..i + 1] == Panels(w, h, white, sin)[..i] + [Panel(i, w, h, white, sin)];
        i := i + 1;
      }
      assert Panels(w, h, white, sin)[..PanelCount] == Panels(w, h, white, sin);
    }

    /** The transparent half of `buildScene`, onto empty lists. */
    method PushTransparent(w: real, h: real)
      requires transparentItems == [] && animatedTransparent == []
      modifies this`transparentItems, this`animatedTransparent
      ensures transparentItems == [ MakeItem(Vec2(w * 0.5, h * 0.38), Vec2(w, h * 0.22), 0.62, FogColor, 0.0, whiteTexture),
                                    MakeItem(Vec2(w * 0.5, h * 0.22), Vec2(w, h * 0.18), 0.42, FogColorClose, 0.0, whiteTexture),
                                    MakeItem(Vec2(w * 0.78, h * 0.48), Vec2(w * 0.28, h * 0.70), 0.04, GlassColor, 0.0, whiteTexture),
                                    MakeItem(Vec2(w * 0.60, h * 0.52), Vec2(w * 0.06, h * 0.70), 0.55,
                                             PackColor(0.20, 0.80, 0.90, 0.24), 0.05, whiteTexture),
                                    MakeItem(Vec2(w * 0.90, h * 0.50), Vec2(w * 0.05, h * 0.65), 0.65,
                                             PackColor(0.15, 0.75, 0.85, 0.22), -0.04, whiteTexture) ]
      ensures animatedTransparent == [ AnimatedLayer(0, Vec2(w * 0.5, h * 0.38), 0.4, w * 0.02),
                                       AnimatedLayer(1, Vec2(w * 0.5, h * 0.22), 0.6, w * 0.03) ]
    {
      var white := whiteTexture;
      var fogLayer := |transparentItems|;
      transparentItems := transparentItems + [MakeItem(Vec2(w * 0.5, h * 0.38), Vec2(w, h * 0.22), 0.62, FogColor, 0.0, white)];
      animatedTransparent := animatedTransparent + [AnimatedLayer(fogLayer, Vec2(w * 0.5, h * 0.38), 0.4, w * 0.02)];
      var fogLayer2 := |transparentItems|;
      transparentItems := transparentItems + [MakeItem(Vec2(w * 0.5, h * 0.22), Vec2(w, h * 0.18), 0.42, FogColorClose, 0.0, white)];
      animatedTransparent := animatedTransparent + [AnimatedLayer(fogLayer2, Vec2(w * 0.5, h * 0.22), 0.6, w * 0.03)];
      transparentItems := transparentItems + [MakeItem(Vec2(w * 0.78, h * 0.48), Vec2(w * 0.28, h * 0.70), 0.04, GlassColor, 0.0, white)];
      transparentItems := transparentItems + [MakeItem(Vec2(w * 0.60, h * 0.52), Vec2(w * 0.06, h * 0.70), 0.55,
                                                       PackColor(0.20, 0.80, 0.90, 0.24), 0.05, white)];
      transparentItems := transparentItems + [MakeItem(Vec2(w * 0.90, h * 0.50), Vec2(w * 0.05, h * 0.65), 0.65,
                                                       PackColor(0.15, 0.75, 0.85, 0.22), -0.04, white)];
    }

    // -- per-frame updates --

    /**
     * `updateDrawOrder`: the opaque indices sorted nearest first, farthest
     * first, or shuffled by the generator, which then has consumed one
     * output per shuffled position; the transparent indices always farthest
     * first.
     */
    method UpdateDrawOrder()
      modifies this`opaqueOrder, this`transparentOrder, this`rng
      ensures opaqueOrder == OpaqueOrder(drawOrder, opaqueItems, old(rng))
      ensures transparentOrder == TransparentOrder(transparentItems)
      ensures drawOrder.Random? ==> rng == AfterShuffle(old(rng), |opaqueItems|)
      ensures !drawOrder.Random? ==> rng == old(rng)
      ensures InRange(opaqueOrder, |opaqueItems|)
      ensures InRange(transparentOrder, |transparentItems|)
    {
      OpaqueOrderPermutes(drawOrder, opaqueItems, rng);
      opaqueOrder := OpaqueOrder(drawOrder, opaqueItems, rng);
      if drawOrder.Random? {
        rng := AfterShuffle(rng, |opaqueItems|);
      }
      transparentOrder := TransparentOrder(transparentItems);
    }

    /**
     * `updateAnimatedLayers`: each layer in turn moves the x of the item it
     * names to its rest x plus its drift at the current time; a layer naming
     * no item is skipped.
     */
    method UpdateAnimatedLayers(sin: real -> real)
      modifies this`transparentItems
      ensures transparentItems == AnimateAll(old(transparentItems), animatedTransparent, timeSeconds, sin)
      ensures |transparentItems| == |old(transparentItems)|
    {
      var i := 0;
      while i < |animatedTransparent|
        invariant 0 <= i <= |animatedTransparent|
        invariant |transparentItems| == |old(transparentItems)|
        invariant AnimateAll(transparentItems, animatedTransparent[i..], timeSeconds, sin)
                  == AnimateAll(old(transparentItems), animatedTransparent, timeSeconds, sin)
      {
        var layer := animatedTransparent[i];
        assert animatedTransparent[i..][0] == layer && animatedTransparent[i..][1..] == animatedTransparent[i + 1..];
        ghost var before := transparentItems;
        if layer.index < |transparentItems| {
          var item := transparentItems[layer.index];
          var drift := Drift(layer, timeSeconds, sin);
          transparentItems := transparentItems[layer.index := item.(position := Vec2(layer.basePosition.x + drift, item.position.y))];
        }
        assert transparentItems == Animate(before, layer, timeSeconds, sin);
        i := i + 1;
      }
    }

    // -- drawing --

    /** `drawSprite`: the item's model matrix, depth and tint, its texture (white for none), one quad. */
    method DrawSprite(gl: Device, item: RenderItem)
      requires gl.Valid()
      modifies gl
      ensures gl.Valid() && gl.live == old(gl.live) && gl.next == old(gl.next) && gl.SettingsUnchanged()
      ensures gl.log == old(gl.log) + SpriteEvents(spriteShader, whiteTexture, item)
    {
      ghost var log0 := gl.log;
      var transform := SpriteTransform(item);
      gl.SetUniform(spriteShader, "uModel", Floats(ColumnMajor9(transform)));
      ghost var a := UniformEvents(spriteShader, "uModel", Floats(ColumnMajor9(transform)));
      gl.SetUniform(spriteShader, "uDepth", FloatValue(item.depth));
      ghost var b := UniformEvents(spriteShader, "uDepth", FloatValue(item.depth));
      gl.SetUniform(spriteShader, "uTintColor", ColorValue(item.tint));
      ghost var c := UniformEvents(spriteShader, "uTintColor", ColorValue(item.tint));
      gl.Issue(ActiveTexture(0));
      gl.Issue(BindTexture(if item.texture == 0 then whiteTexture else item.texture));
      ghost var d := [ActiveTexture(0), BindTexture(SpriteTexture(item, whiteTexture))];
      assert gl.log == log0 + a + b + c + d;
      AppendAssoc(log0, a, b);
      AppendAssoc(log0, a + b, c);
      AppendAssoc(log0, a + b + c, d);
      gl.Issue(DrawElements(6));
      AppendAssoc(log0, SpriteSetup(spriteShader, whiteTexture, item), [DrawElements(6)]);
    }

    /** The items of `items` named by `order`, drawn one after another. */
    method DrawSprites(gl: Device, items: seq<RenderItem>, order: seq<nat>)
      requires gl.Valid() && InRange(order, |items|)
      modifies gl
      ensures gl.Valid() && gl.live == old(gl.live) && gl.next == old(gl.next) && gl.SettingsUnchanged()
      ensures gl.log == old(gl.log) + SpritesEvents(spriteShader, whiteTexture, items, order)
    {
      var i := 0;
      while i < |order|
        invariant 0 <= i <= |order|
        invariant gl.Valid() && gl.live == old(gl.live) && gl.next == old(gl.next) && gl.SettingsUnchanged()
        invariant gl.log == old(gl.log) + SpritesEvents(spriteShader, whiteTexture, items, order[..i])
      {
        ghost var before := SpritesEvents(spriteShader, whiteTexture, items, order[..i]);
        DrawSprite(gl, items[order[i]]);
        assert order[..i + 1][..i] == order[..i];
        AppendAssoc(old(gl.log), before, SpriteEvents(spriteShader, whiteTexture, items[order[i]]));
        i := i + 1;
      }
      assert order[..|order|] == order;
    }

    /** The calls of `renderSceneToMsaa` before the first sprite. */
    method BeginScenePass(gl: Device)
      requires gl.Valid()
      modifies gl
      ensures gl.Valid() && gl.live == old(gl.live) && gl.next == old(gl.next) && gl.statusQueue == old(gl.statusQueue)
      ensures gl.viewport == Rect(IVec2(0, 0), viewportSize) && gl.clearColor == SceneClearColor
      ensures gl.log == old(gl.log) + ScenePrologue(msaaTarget.framebuffer, viewportSize, spriteShader, quadVao)
    {
      ghost var log0 := gl.log;
      gl.Emit(BindFramebuffer(msaaTarget.framebuffer));
      gl.Emit(SetViewport(Rect(IVec2(0, 0), viewportSize)));
      gl.Issue(Enable(DepthTest));
      gl.Issue(DepthMask(true));
      gl.Issue(Disable(Blend));
      ghost var head := [BindFramebuffer(msaaTarget.framebuffer), SetViewport(Rect(IVec2(0, 0), viewportSize))] + DepthSetup();
      assert gl.log == log0 + head;
      SetUpSprites(gl);
      AppendAssoc(log0, head, SceneSetup(viewportSize, spriteShader, quadVao));
    }

    /** The clear and the sprite program with its per-pass uniforms, then the quad bound. */
    method SetUpSprites(gl: Device)
      requires gl.Valid()
      modifies gl
      ensures gl.Valid() && gl.live == old(gl.live) && gl.next == old(gl.next) && gl.statusQueue == old(gl.statusQueue)
      ensures gl.viewport == old(gl.viewport) && gl.boundFramebuffer == old(gl.boundFramebuffer) && gl.clearColor == SceneClearColor
      ensures gl.log == old(gl.log) + SceneSetup(viewportSize, spriteShader, quadVao)
    {
      ghost var log0 := gl.log;
      gl.Emit(SetClearColor(SceneClearColor));
      gl.Issue(Clear(ColorBit + DepthBit));
      var viewProjection := Ndc(viewportSize);
      gl.Issue(UseProgram(spriteShader.program));
      ghost var setup := [SetClearColor(SceneClearColor), Clear(ColorBit + DepthBit), UseProgram(spriteShader.program)];
      assert gl.log == log0 + setup;
      gl.SetUniform(spriteShader, "uViewProjection", Floats(ColumnMajor9(viewProjection)));
      ghost var u1 := UniformEvents(spriteShader, "uViewProjection", Floats(ColumnMajor9(viewProjection)));
      AppendAssoc(log0, setup, u1);
      gl.SetUniform(spriteShader, "uTexture", IntValue(0));
      ghost var u2 := UniformEvents(spriteShader, "uTexture", IntValue(0));
      AppendAssoc(log0, setup + u1, u2);
      gl.Issue(BindVertexArray(quadVao));
      AppendAssoc(log0, setup + u1 + u2, [BindVertexArray(quadVao)]);
    }

    /**
     * `renderSceneToMsaa`: into the MSAA framebuffer with depth test and
     * writes on and blending off, the opaque items in their order; then
     * blending on and depth writes off for the transparent items in theirs;
     * depth writes restored and the default framebuffer bound at the end.
     */
    method RenderSceneToMsaa(gl: Device)
      requires gl.Valid() && InRange(opaqueOrder, |opaqueItems|) && InRange(transparentOrder, |transparentItems|)
      modifies gl
      ensures gl.Valid() && gl.live == old(gl.live) && gl.next == old(gl.next) && gl.statusQueue == old(gl.statusQueue)
      ensures gl.viewport == Rect(IVec2(0, 0), viewportSize) && gl.clearColor == SceneClearColor && gl.boundFramebuffer == 0
      ensures gl.log == old(gl.log) + SceneEvents(msaaTarget.framebuffer, viewportSize, spriteShader, quadVao, whiteTexture,
                                                  opaqueItems, opaqueOrder, transparentItems, transparentOrder)
    {
      ghost var log0 := gl.log;
      BeginScenePass(gl);
      ghost var prologue := ScenePrologue(msaaTarget.framebuffer, viewportSize, spriteShader, quadVao);
      ghost var log1 := gl.log;
      DrawSprites(gl, opaqueItems, opaqueOrder);
      ghost var opaqueDraws := SpritesEvents(spriteShader, whiteTexture, opaqueItems, opaqueOrder);
      assert gl.log == log1 + opaqueDraws;
      AppendAssoc(log0, prologue, opaqueDraws);
      ghost var log2 := gl.log;
      DrawTransparent(gl);
      ghost var transparent := TransparentPass(spriteShader, whiteTexture, transparentItems, transparentOrder);
      assert gl.log == log2 + transparent;
      AppendAssoc(log0, prologue + opaqueDraws, transparent);
    }

    /** The transparent half of `renderSceneToMsaa`, through to the final unbinding. */
    method DrawTransparent(gl: Device)
      requires gl.Valid() && InRange(transparentOrder, |transparentItems|)
      modifies gl
      ensures gl.Valid() && gl.live == old(gl.live) && gl.next == old(gl.next) && gl.statusQueue == old(gl.statusQueue)
      ensures gl.viewport == old(gl.viewport) && gl.clearColor == old(gl.clearColor) && gl.boundFramebuffer == 0
      ensures gl.log == old(gl.log) + TransparentPass(spriteShader, whiteTexture, transparentItems, transparentOrder)
    {
      ghost var log0 := gl.log;
      ghost var head := [Enable(Blend)] + [DepthMask(false)];
      BlendWithoutDepthWrites(gl);
      DrawSprites(gl, transparentItems, transparentOrder);
      ghost var sprites := SpritesEvents(spriteShader, whiteTexture, transparentItems, transparentOrder);
      AppendAssoc(log0, head, sprites);
      ghost var tail := [DepthMask(true)] + [BindVertexArray(0), BindFramebuffer(0)];
      EndScenePass(gl);
      AppendAssoc(log0, head + sprites, tail);
    }

    /** `resolveMsaaToTexture`: the colour blit from the MSAA framebuffer into the resolve target. */
    method ResolveMsaaToTexture(gl: Device)
      requires gl.Valid()
      modifies gl
      ensures gl.Valid() && gl.live == old(gl.live) && gl.next == old(gl.next) && gl.SettingsUnchanged()
      ensures gl.log == old(gl.log) + ResolveEvents(msaaTarget.framebuffer, resolveTarget.framebuffer, viewportSize)
    {
      gl.Issue(BindReadFramebuffer(msaaTarget.framebuffer));
      gl.Issue(BindDrawFramebuffer(resolveTarget.framebuffer));
      gl.Issue(BlitColor(msaaTarget.framebuffer, resolveTarget.framebuffer, viewportSize));
      gl.Issue(BindReadFramebuffer(0));
      gl.Issue(BindDrawFramebuffer(0));
    }

    /** What the post chain reads from the demo. */
    function PostSettings(): Settings
      reads this
    {
      Settings(chromaticShader, vignetteShader, grainShader, gammaShader,
               chromaticStrength, vignetteIntensity, vignetteRadius, vignetteSoftness,
               grainIntensity, scanlineIntensity,
               enableChromatic, enableVignette, enableGrain, enableGamma, gammaValue,
               viewportSize, timeSeconds, fullscreenVao)
    }

    /** The textures of the two post targets. */
    function PostTextures(): seq<Handle>
      reads this
      requires |postTargets| == 2
    {
      [postTargets[0].texture, postTargets[1].texture]
    }

    /** The framebuffers of the two post targets. */
    function PostFramebuffers(): seq<Handle>
      reads this
      requires |postTargets| == 2
    {
      [postTargets[0].framebuffer, postTargets[1].framebuffer]
    }

    /**
     * `runPostProcessing`: starting from the resolved scene, each enabled
     * effect renders into the post target `ping` and becomes the next
     * input; the gamma pass then draws the last output to the screen.
     */
    method RunPostProcessing(gl: Device)
      requires gl.Valid() && |postTargets| == 2 && viewportSize.x != 0 && viewportSize.y != 0
      modifies gl
      ensures gl.Valid() && gl.live == old(gl.live) && gl.next == old(gl.next) && gl.statusQueue == old(gl.statusQueue)
      ensures gl.boundFramebuffer == 0 && gl.viewport == FullViewport(viewportSize) && gl.clearColor == old(gl.clearColor)
      ensures gl.log == old(gl.log) + PostEvents(PostSettings(), resolveTarget.texture, PostTextures(), PostFramebuffers())
    {
      var s := PostSettings();
      var textures := PostTextures();
      var framebuffers := PostFramebuffers();
      ghost var log0 := gl.log;
      BeginPostPass(gl, s);
      ghost var log1 := gl.log;
      var current := EffectPasses(gl, s, resolveTarget.texture, textures, framebuffers);
      ghost var passes := PassesEvents(s, Passes(Stages(enableChromatic, enableVignette, enableGrain), resolveTarget.texture, textures), framebuffers);
      ghost var log2 := gl.log;
      GammaPass(gl, s, current);
      EndPostPass(gl);
      ghost var gamma := GammaEvents(s, current);
      ghost var epilogue := [BindVertexArray(0), DepthMask(true)];
      assert gl.log == log2 + gamma + epilogue;
      AppendAssoc(log0, PostPrologue(s), passes);
      AppendAssoc(log0, PostPrologue(s) + passes, gamma);
      AppendAssoc(log0, PostPrologue(s) + passes + gamma, epilogue);
    }

    /** Every call of one frame: the scene pass, the resolve, the post chain. */
    ghost function FrameEvents(): seq<Event>
      reads this
      requires Valid() && viewportSize.x > 0 && viewportSize.y > 0
    {
      SceneEvents(msaaTarget.framebuffer, viewportSize, spriteShader, quadVao, whiteTexture,
                  opaqueItems, opaqueOrder, transparentItems, transparentOrder)
      + ResolveEvents(msaaTarget.framebuffer, resolveTarget.framebuffer, viewportSize)
      + PostEvents(PostSettings(), resolveTarget.texture, PostTextures(), PostFramebuffers())
    }

    /** `Draw`: nothing while the window has no area, otherwise scene, resolve and post chain. */
    method Draw(gl: Device)
      requires gl.Valid() && Valid()
      modifies gl
      ensures gl.Valid() && gl.live == old(gl.live) && gl.next == old(gl.next) && gl.statusQueue == old(gl.statusQueue)
      ensures viewportSize.x <= 0 || viewportSize.y <= 0 ==> gl.log == old(gl.log) && gl.SettingsUnchanged()
      ensures viewportSize.x > 0 && viewportSize.y > 0 ==> gl.log == old(gl.log) + FrameEvents()
      ensures viewportSize.x > 0 && viewportSize.y > 0 ==>
                gl.boundFramebuffer == 0 && gl.viewport == FullViewport(viewportSize) && gl.clearColor == SceneClearColor
    {
      if viewportSize.x <= 0 || viewportSize.y <= 0 {
        return;
      }
      ghost var log0 := gl.log;
      RenderSceneToMsaa(gl);
      ghost var scene := SceneEvents(msaaTarget.framebuffer, viewportSize, spriteShader, quadVao, whiteTexture,
                                     opaqueItems, opaqueOrder, transparentItems, transparentOrder);
      ResolveMsaaToTexture(gl);
      ghost var resolve := ResolveEvents(msaaTarget.framebuffer, resolveTarget.framebuffer, viewportSize);
      AppendAssoc(log0, scene, resolve);
      RunPostProcessing(gl);
      AppendAssoc(log0, scene + resolve, PostEvents(PostSettings(), resolveTarget.texture, PostTextures(), PostFramebuffers()));
    }

    // -- the demo's lifecycle --

    /**
     * The GPU objects `Load` creates before the render targets: the scene's
     * clear colour set, the quad, the fullscreen vertex array and the white
     * texture, each handle fresh and distinct.
     */
    method CreateGpuObjects(gl: Device)
      requires gl.Valid()
      modifies this`quadVao, this`quadVbo, this`quadEbo, this`fullscreenVao, this`whiteTexture, gl
      ensures gl.Valid() && gl.statusQueue == old(gl.statusQueue) && gl.clearColor == SceneClearColor
      ensures gl.viewport == old(gl.viewport) && gl.boundFramebuffer == old(gl.boundFramebuffer)
      ensures var created := {quadVao, quadVbo, quadEbo, fullscreenVao, whiteTexture};
              0 !in created && |created| == 5 && created !! old(gl.live) && gl.live == old(gl.live) + created
      ensures gl.log == old(gl.log) + SetupEvents(quadVao, quadVbo, quadEbo, fullscreenVao, whiteTexture)
    {
      ghost var log0 := gl.log;
      gl.Emit(SetClearColor(SceneClearColor));
      ghost var log1 := gl.log;
      CreateQuad(gl);
      ghost var live2 := gl.live;
      ghost var q := QuadEvents(quadVao, quadVbo, quadEbo);
      CreateFullscreenTriangle(gl);
      ghost var f := FullscreenVaoEvents(fullscreenVao);
      AppendAssoc(log1, q, f);
      ghost var live3 := gl.live;
      CreateWhiteTexture(gl);
      AppendAssoc(log1, q + f, WhiteTextureEvents(whiteTexture));
      AppendAssoc(log0, [SetClearColor(SceneClearColor)], q + f + WhiteTextureEvents(whiteTexture));
      assert fullscreenVao !in live2 && whiteTexture !in live3;
    }

    /**
     * `Load`: the clear colour and the geometry and white texture, the five
     * shaders (compiled from their files, which is outside this model, so
     * they arrive as parameters), the viewport at the window's size, the
     * render targets at that size, then the scene and the draw orders. An
     * incomplete framebuffer throws out of `Load` before the scene is built.
     */
    method Load(gl: Device, window: IVec2, sprite: CompiledShader, chromatic: CompiledShader, vignette: CompiledShader,
                grain: CompiledShader, gamma: CompiledShader, sin: real -> real) returns (o: Outcome)
      requires gl.Valid() && Valid()
      modifies this, gl
      ensures gl.Valid() && Valid() && gl.clearColor == SceneClearColor
      ensures spriteShader == sprite && chromaticShader == chromatic && vignetteShader == vignette
      ensures grainShader == grain && gammaShader == gamma && viewportSize == window
      ensures drawOrder == old(drawOrder)
      ensures var created := {quadVao, quadVbo, quadEbo, fullscreenVao, whiteTexture};
              0 !in created && |created| == 5 && created !! old(gl.live)
      ensures o == ChecksOutcome(RebuildCaptions, old(gl.statusQueue))
      ensures old(gl.log) + SetupEvents(quadVao, quadVbo, quadEbo, fullscreenVao, whiteTexture)
              + DestroyEvents(old(resolveTarget), old(postTargets), old(msaaTarget)) <= gl.log
      ensures o.Done? ==> gl.log == old(gl.log) + SetupEvents(quadVao, quadVbo, quadEbo, fullscreenVao, whiteTexture)
                                    + DestroyEvents(old(resolveTarget), old(postTargets), old(msaaTarget))
                                    + RebuildEvents(msaaTarget, resolveTarget, postTargets[0], postTargets[1])
      ensures o.Done? ==> msaaTarget.size == window && resolveTarget.size == window
                          && postTargets[0].size == window && postTargets[1].size == window
      ensures o.Done? ==> gl.live == (old(gl.live) + {quadVao, quadVbo, quadEbo, fullscreenVao, whiteTexture}
                                      - AllTargetHandles(old(resolveTarget), old(postTargets), old(msaaTarget)))
                                     + AllTargetHandles(resolveTarget, postTargets, msaaTarget)
      ensures o.Done? ==> opaqueItems == OpaqueLayout(window, whiteTexture, sin)
                          && transparentItems == TransparentLayout(window, whiteTexture)
                          && animatedTransparent == AnimatedLayout(window)
      ensures o.Done? ==> opaqueOrder == OpaqueOrder(drawOrder, opaqueItems, old(rng))
                          && transparentOrder == TransparentOrder(transparentItems)
      ensures o.Done? && drawOrder.Random? ==> rng == AfterShuffle(old(rng), |opaqueItems|)
      ensures o.Done? && !drawOrder.Random? ==> rng == old(rng)
      ensures o.Thrown? ==> opaqueItems == old(opaqueItems) && transparentItems == old(transparentItems)
                            && animatedTransparent == old(animatedTransparent) && rng == old(rng)
                            && opaqueOrder == old(opaqueOrder) && transparentOrder == old(transparentOrder)
    {
      o := LoadGpuState(gl, window, sprite, chromatic, vignette, grain, gamma);
      LayOutUnlessThrown(o, window, sin);
    }

    /** The end of `Load`: the scene is laid out and ordered only when no check threw. */
    method LayOutUnlessThrown(o: Outcome, window: IVec2, sin: real -> real)
      requires Valid()
      modifies this`opaqueItems, this`transparentItems, this`animatedTransparent, this`opaqueOrder, this`transparentOrder, this`rng
      ensures Valid()
      ensures o.Done? ==> opaqueItems == OpaqueLayout(window, whiteTexture, sin)
                          && transparentItems == TransparentLayout(window, whiteTexture)
                          && animatedTransparent == AnimatedLayout(window)
      ensures o.Done? ==> opaqueOrder == OpaqueOrder(drawOrder, opaqueItems, old(rng))
                          && transparentOrder == TransparentOrder(transparentItems)
      ensures o.Done? && drawOrder.Random? ==> rng == AfterShuffle(old(rng), |opaqueItems|)
      ensures o.Done? && !drawOrder.Random? ==> rng == old(rng)
      ensures o.Thrown? ==> opaqueItems == old(opaqueItems) && transparentItems == old(transparentItems)
                            && animatedTransparent == old(animatedTransparent) && rng == old(rng)
                            && opaqueOrder == old(opaqueOrder) && transparentOrder == old(transparentOrder)
    {
      if o.Done? {
        LayOut(window, sin);
      }
    }

    /** The GPU half of `Load`: everything before `buildScene`. */
    method LoadGpuState(gl: Device, window: IVec2, sprite: CompiledShader, chromatic: CompiledShader, vignette: CompiledShader,
                        grain: CompiledShader, gamma: CompiledShader) returns (o: Outcome)
      requires gl.Valid() && |postTargets| == 2
      modifies this`quadVao, this`quadVbo, this`quadEbo, this`fullscreenVao, this`whiteTexture
      modifies this`spriteShader, this`chromaticShader, this`vignetteShader, this`grainShader, this`gammaShader
      modifies this`viewportSize, this`resolveTarget, this`postTargets, this`msaaTarget, gl
      ensures gl.Valid() && |postTargets| == 2 && gl.clearColor == SceneClearColor
      ensures spriteShader == sprite && chromaticShader == chromatic && vignetteShader == vignette
      ensures grainShader == grain && gammaShader == gamma && viewportSize == window
      ensures var created := {quadVao, quadVbo, quadEbo, fullscreenVao, whiteTexture};
              0 !in created && |created| == 5 && created !! old(gl.live)
      ensures o == ChecksOutcome(RebuildCaptions, old(gl.statusQueue))
      ensures old(gl.log) + SetupEvents(quadVao, quadVbo, quadEbo, fullscreenVao, whiteTexture)
              + DestroyEvents(old(resolveTarget), old(postTargets), old(msaaTarget)) <= gl.log
      ensures o.Done? ==> gl.log == old(gl.log) + SetupEvents(quadVao, quadVbo, quadEbo, fullscreenVao, whiteTexture)
                                    + DestroyEvents(old(resolveTarget), old(postTargets), old(msaaTarget))
                                    + RebuildEvents(msaaTarget, resolveTarget, postTargets[0], postTargets[1])
      ensures o.Done? ==> msaaTarget.size == window && resolveTarget.size == window
                          && postTargets[0].size == window && postTargets[1].size == window
      ensures o.Done? ==> gl.live == (old(gl.live) + {quadVao, quadVbo, quadEbo, fullscreenVao, whiteTexture}
                                      - AllTargetHandles(old(resolveTarget), old(postTargets), old(msaaTarget)))
                                     + AllTargetHandles(resolveTarget, postTargets, msaaTarget)
    {
      ghost var log0 := gl.log;
      CreateGpuObjects(gl);
      ghost var setup := SetupEvents(quadVao, quadVbo, quadEbo, fullscreenVao, whiteTexture);
      AdoptShaders(window, sprite, chromatic, vignette, grain, gamma);
      o := RebuildRenderTargets(gl, window);
      ghost var destroyed := DestroyEvents(old(resolveTarget), old(postTargets), old(msaaTarget));
      AppendAssoc(log0, setup, destroyed);
      if o.Done? {
        AppendAssoc(log0 + setup, destroyed, RebuildEvents(msaaTarget, resolveTarget, postTargets[0], postTargets[1]));
      }
    }

    /** The compiled shaders and the window's size as `Load` records them. */
    method AdoptShaders(window: IVec2, sprite: CompiledShader, chromatic: CompiledShader, vignette: CompiledShader,
                        grain: CompiledShader, gamma: CompiledShader)
      modifies this`spriteShader, this`chromaticShader, this`vignetteShader, this`grainShader, this`gammaShader, this`viewportSize
      ensures spriteShader == sprite && chromaticShader == chromatic && vignetteShader == vignette
      ensures grainShader == grain && gammaShader == gamma && viewportSize == window
    {
      spriteShader := sprite;
      chromaticShader := chromatic;
      vignetteShader := vignette;
      grainShader := grain;
      gammaShader := gamma;
      viewportSize := window;
    }

    /** The scene half of `Load`: the layout at the window's size, then the draw orders. */
    method LayOut(window: IVec2, sin: real -> real)
      requires |postTargets| == 2
      modifies this`opaqueItems, this`transparentItems, this`animatedTransparent, this`opaqueOrder, this`transparentOrder, this`rng
      ensures Valid()
      ensures opaqueItems == OpaqueLayout(window, whiteTexture, sin) && transparentItems == TransparentLayout(window, whiteTexture)
      ensures animatedTransparent == AnimatedLayout(window)
      ensures opaqueOrder == OpaqueOrder(drawOrder, opaqueItems, old(rng)) && transparentOrder == TransparentOrder(transparentItems)
      ensures drawOrder.Random? ==> rng == AfterShuffle(old(rng), |opaqueItems|)
      ensures !drawOrder.Random? ==> rng == old(rng)
    {
      BuildScene(window, sin);
      UpdateDrawOrder();
    }

    /**
     * `Update`: the clock; when the window's size changed, the viewport,
     * the render targets and the scene at the new size; then the fog
     * animation and the draw orders. A size that did not change touches no
     * GPU object.
     */
    method Update(gl: Device, window: IVec2, elapsed: real, sin: real -> real) returns (o: Outcome)
      requires gl.Valid() && Valid()
      modifies this`timeSeconds, this`viewportSize, this`resolveTarget, this`postTargets, this`msaaTarget
      modifies this`opaqueItems, this`transparentItems, this`animatedTransparent, this`opaqueOrder, this`transparentOrder, this`rng
      modifies gl
      ensures gl.Valid() && Valid()
      ensures timeSeconds == elapsed
      ensures viewportSize == window
      ensures window == old(viewportSize) ==> o == Done
      ensures window == old(viewportSize) ==> gl.log == old(gl.log) && gl.live == old(gl.live)
      ensures window == old(viewportSize) ==> gl.statusQueue == old(gl.statusQueue)
      ensures window == old(viewportSize) ==> msaaTarget == old(msaaTarget)
      ensures window == old(viewportSize) ==> resolveTarget == old(resolveTarget) && postTargets == old(postTargets)
      ensures window != old(viewportSize) ==> o == ChecksOutcome(RebuildCaptions, old(gl.statusQueue))
      ensures window != old(viewportSize) ==> msaaTarget.size == window
      ensures window != old(viewportSize) ==>
                RebuiltFrom(gl, window, old(gl.statusQueue), old(gl.log), old(gl.live), old(resolveTarget), old(postTargets), old(msaaTarget))
      ensures window == old(viewportSize) ==> opaqueItems == old(opaqueItems) && animatedTransparent == old(animatedTransparent)
      ensures window == old(viewportSize) ==> transparentItems == AnimateAll(old(transparentItems), animatedTransparent, elapsed, sin)
      ensures window != old(viewportSize) && o.Done? ==> opaqueItems == OpaqueLayout(window, whiteTexture, sin)
      ensures window != old(viewportSize) && o.Done? ==> animatedTransparent == AnimatedLayout(window)
      ensures window != old(viewportSize) && o.Done? ==> transparentItems == AnimateAll(TransparentLayout(window, whiteTexture), animatedTransparent, elapsed, sin)
      ensures o.Done? ==> opaqueOrder == OpaqueOrder(drawOrder, opaqueItems, old(rng))
                          && transparentOrder == TransparentOrder(transparentItems)
      ensures o.Done? && drawOrder.Random? ==> rng == AfterShuffle(old(rng), |opaqueItems|)
      ensures o.Done? && !drawOrder.Random? ==> rng == old(rng)
      ensures o.Thrown? ==> opaqueItems == old(opaqueItems) && transparentItems == old(transparentItems)
                            && animatedTransparent == old(animatedTransparent) && rng == old(rng)
                            && opaqueOrder == old(opaqueOrder) && transparentOrder == old(transparentOrder)
    {
      if window == viewportSize {
        o := Done;
        AnimateAndOrder(elapsed, sin);
      } else {
        o := ResizeAndAnimate(gl, window, elapsed, sin);
      }
    }

    /** `Update` when the window size changed: rebuild at the new size, then lay out, animate and re-order unless a check threw. */
    method ResizeAndAnimate(gl: Device, window: IVec2, elapsed: real, sin: real -> real) returns (o: Outcome)
      requires gl.Valid() && Valid()
      modifies this`timeSeconds, this`viewportSize, this`resolveTarget, this`postTargets, this`msaaTarget
      modifies this`opaqueItems, this`transparentItems, this`animatedTransparent, this`opaqueOrder, this`transparentOrder, this`rng
      modifies gl
      ensures gl.Valid() && Valid()
      ensures timeSeconds == elapsed && viewportSize == window
      ensures o == ChecksOutcome(RebuildCaptions, old(gl.statusQueue)) && msaaTarget.size == window
      ensures RebuiltFrom(gl, window, old(gl.statusQueue), old(gl.log), old(gl.live), old(resolveTarget), old(postTargets), old(msaaTarget))
      ensures o.Done? ==> opaqueItems == OpaqueLayout(window, whiteTexture, sin)
      ensures o.Done? ==> animatedTransparent == AnimatedLayout(window)
      ensures o.Done? ==> transparentItems == AnimateAll(TransparentLayout(window, whiteTexture), animatedTransparent, elapsed, sin)
      ensures o.Done? ==> opaqueOrder == OpaqueOrder(drawOrder, opaqueItems, old(rng))
      ensures o.Done? ==> transparentOrder == TransparentOrder(transparentItems)
      ensures o.Done? && drawOrder.Random? ==> rng == AfterShuffle(old(rng), |opaqueItems|)
      ensures o.Done? && !drawOrder.Random? ==> rng == old(rng)
      ensures o.Thrown? ==> unchanged(this`opaqueItems, this`transparentItems, this`animatedTransparent, this`rng)
      ensures o.Thrown? ==> unchanged(this`opaqueOrder, this`transparentOrder)
    {
      o := Resize(gl, window);
      if o.Thrown? {
        timeSeconds := elapsed;
      } else {
        Relayout(window, elapsed, sin);
      }
    }

    /**
     * The GPU half of a resized `Update`: the new size is recorded and the
     * render targets are rebuilt at it.
     */
    method Resize(gl: Device, window: IVec2) returns (o: Outcome)
      requires gl.Valid() && |postTargets| == 2
      modifies this`viewportSize, this`resolveTarget, this`postTargets, this`msaaTarget, gl
      ensures gl.Valid() && |postTargets| == 2 && viewportSize == window
      ensures o == ChecksOutcome(RebuildCaptions, old(gl.statusQueue)) && msaaTarget.size == window
      ensures RebuiltFrom(gl, window, old(gl.statusQueue), old(gl.log), old(gl.live), old(resolveTarget), old(postTargets), old(msaaTarget))
    {
      viewportSize := window;
      o := RebuildRenderTargets(gl, viewportSize);
    }

    /** The scene half of a resized `Update`: the layout at the new size, then the fog animation and the draw orders. */
    method Relayout(window: IVec2, time: real, sin: real -> real)
      requires |postTargets| == 2
      modifies this`timeSeconds, this`opaqueItems, this`transparentItems, this`animatedTransparent
      modifies this`opaqueOrder, this`transparentOrder, this`rng
      ensures Valid() && timeSeconds == time
      ensures opaqueItems == OpaqueLayout(window, whiteTexture, sin) && animatedTransparent == AnimatedLayout(window)
      ensures transparentItems == AnimateAll(TransparentLayout(window, whiteTexture), animatedTransparent, time, sin)
      ensures opaqueOrder == OpaqueOrder(drawOrder, opaqueItems, old(rng))
      ensures transparentOrder == TransparentOrder(transparentItems)
      ensures drawOrder.Random? ==> rng == AfterShuffle(old(rng), |opaqueItems|)
      ensures !drawOrder.Random? ==> rng == old(rng)
    {
      BuildScene(window, sin);
      AnimateAndOrder(time, sin);
    }

    /** The part of `Update` every frame runs: the fog animation, then the draw orders. */
    method AnimateAndOrder(time: real, sin: real -> real)
      requires |postTargets| == 2 && LayersValid()
      modifies this`timeSeconds, this`transparentItems, this`opaqueOrder, this`transparentOrder, this`rng
      ensures Valid() && timeSeconds == time
      ensures transparentItems == AnimateAll(old(transparentItems), animatedTransparent, time, sin)
      ensures opaqueOrder == OpaqueOrder(drawOrder, opaqueItems, old(rng))
      ensures transparentOrder == TransparentOrder(transparentItems)
      ensures drawOrder.Random? ==> rng == AfterShuffle(old(rng), |opaqueItems|)
      ensures !drawOrder.Random? ==> rng == old(rng)
    {
      timeSeconds := time;
      UpdateAnimatedLayers(sin);
      UpdateDrawOrder();
    }

    /** The calls that releasing everything the demo holds would make now. */
    ghost function ReleaseAllEvents(): seq<Event>
      reads this
      requires |postTargets| == 2
    {
      DestroyEvents(resolveTarget, postTargets, msaaTarget)
      + GeometryReleaseEvents(quadVao, quadVbo, quadEbo, fullscreenVao)
      + (if whiteTexture != 0 then [Deleted(TextureObject, whiteTexture)] else [])
    }

    /** The five `OpenGL::DestroyShader` calls of `Unload`, in its order. */
    function ShaderReleaseEvents(): seq<Event>
      reads this
    {
      [ ShaderDestroyed(spriteShader.program), ShaderDestroyed(chromaticShader.program),
        ShaderDestroyed(vignetteShader.program), ShaderDestroyed(grainShader.program),
        ShaderDestroyed(gammaShader.program) ]
    }

    /** The shader half of `Unload`: each of the five programs destroyed once. */
    method DestroyShaders(gl: Device)
      requires gl.Valid()
      modifies gl
      ensures gl.Valid() && gl.SettingsUnchanged() && gl.live == old(gl.live)
      ensures gl.log == old(gl.log) + ShaderReleaseEvents()
    {
      gl.Issue(ShaderDestroyed(spriteShader.program));
      gl.Issue(ShaderDestroyed(chromaticShader.program));
      gl.Issue(ShaderDestroyed(vignetteShader.program));
      gl.Issue(ShaderDestroyed(grainShader.program));
      gl.Issue(ShaderDestroyed(gammaShader.program));
    }

    /** Every GPU object handle the demo holds, shaders aside. */
    ghost function HeldHandles(): set<Handle>
      reads this
      requires |postTargets| == 2
    {
      AllTargetHandles(resolveTarget, postTargets, msaaTarget) + {quadVao, quadVbo, quadEbo, fullscreenVao, whiteTexture}
    }

    /**
     * `Unload`: the render targets, the geometry and the white texture are
     * released and their handles zeroed, so that unloading again releases
     * nothing; then the five shaders are destroyed.
     */
    method Unload(gl: Device)
      requires gl.Valid() && |postTargets| == 2
      modifies this`resolveTarget, this`postTargets, this`msaaTarget, this`quadVao, this`quadVbo, this`quadEbo
      modifies this`fullscreenVao, this`whiteTexture, gl
      ensures gl.Valid() && gl.SettingsUnchanged() && |postTargets| == 2
      ensures gl.log == old(gl.log) + old(ReleaseAllEvents()) + ShaderReleaseEvents()
      ensures gl.live == old(gl.live) - old(HeldHandles())
      ensures ReleaseAllEvents() == [] && HeldHandles() == {0}
    {
      ghost var log0 := gl.log;
      ghost var targets := DestroyEvents(resolveTarget, postTargets, msaaTarget);
      ghost var geometry := GeometryReleaseEvents(quadVao, quadVbo, quadEbo, fullscreenVao);
      ghost var white := if whiteTexture != 0 then [Deleted(TextureObject, whiteTexture)] else [];
      DestroyRenderTargets(gl);
      DestroyGeometry(gl);
      AppendAssoc(log0, targets, geometry);
      DestroyWhiteTexture(gl);
      AppendAssoc(log0, targets + geometry, white);
      DestroyShaders(gl);
      DestroyTwice(old(msaaTarget));
      GeometryReleaseSpec(0, 0, 0, 0);
    }
  }
}
