/**
 * The post-processing chain of `DemoDepthPost::runPostProcessing`: up to
 * three fullscreen effects, each reading the texture the previous one wrote
 * and writing one of two ping-pong targets, then a gamma pass into the
 * default framebuffer.
 */
module PostChain {
  import opened Vec2
  import opened GL

  datatype Effect = Chromatic | Vignette | Grain

  /** The position of an effect in the fixed chain order. */
  function Rank(e: Effect): nat {
    match e
    case Chromatic => 0
    case Vignette => 1
    case Grain => 2
  }

  /** The effects one `if (enable...)` block adds: `e` when it is on, none otherwise. */
  function Enabled(on: bool, e: Effect): seq<Effect> {
    if on then [e] else []
  }

  /** The enabled effects, in chain order. */
  function Stages(chromatic: bool, vignette: bool, grain: bool): seq<Effect> {
    Enabled(chromatic, Chromatic) + Enabled(vignette, Vignette) + Enabled(grain, Grain)
  }

  /** One pass per enabled effect, in chain order, and no effect twice. */
  lemma StagesSpec(chromatic: bool, vignette: bool, grain: bool)
    ensures |Stages(chromatic, vignette, grain)| == (if chromatic then 1 else 0) + (if vignette then 1 else 0) + (if grain then 1 else 0)
    ensures (Chromatic in Stages(chromatic, vignette, grain) <==> chromatic)
            && (Vignette in Stages(chromatic, vignette, grain) <==> vignette)
            && (Grain in Stages(chromatic, vignette, grain) <==> grain)
    ensures forall i, j :: 0 <= i < j < |Stages(chromatic, vignette, grain)| ==>
              Rank(Stages(chromatic, vignette, grain)[i]) < Rank(Stages(chromatic, vignette, grain)[j])
  {
  }

  /** A fullscreen pass: the effect, the texture it samples, and the ping-pong target (0 or 1) it writes. */
  datatype Pass = Pass(effect: Effect, input: Handle, target: nat)

  /**
   * The passes of `effects` when the cursor starts at `input` and the next
   * target is `ping`: each pass writes `targets[ping]`, after which the
   * cursor is that target's texture and `ping` flips.
   */
  function PassesFrom(effects: seq<Effect>, input: Handle, ping: nat, textures: seq<Handle>): (ps: seq<Pass>)
    requires ping < 2 && |textures| == 2
    ensures |ps| == |effects| && forall k :: 0 <= k < |ps| ==> ps[k].target < 2
    decreases |effects|
  {
    if effects == [] then []
    else [Pass(effects[0], input, ping)] + PassesFrom(effects[1..], textures[ping], 1 - ping, textures)
  }

  /** The texture the cursor holds after the passes: what the gamma pass samples. */
  function OutputFrom(effects: seq<Effect>, input: Handle, ping: nat, textures: seq<Handle>): Handle
    requires ping < 2 && |textures| == 2
    decreases |effects|
  {
    if effects == [] then input else OutputFrom(effects[1..], textures[ping], 1 - ping, textures)
  }

  /** The chain as run: cursor at the resolved scene texture, first target 0. */
  function Passes(effects: seq<Effect>, source: Handle, textures: seq<Handle>): (ps: seq<Pass>)
    requires |textures| == 2
    ensures |ps| == |effects| && forall k :: 0 <= k < |ps| ==> ps[k].target < 2
  {
    PassesFrom(effects, source, 0, textures)
  }

  function Output(effects: seq<Effect>, source: Handle, textures: seq<Handle>): Handle
    requires |textures| == 2
  {
    OutputFrom(effects, source, 0, textures)
  }

  /**
   * Pass `k` runs effect `k`, writes target `(ping + k) % 2`, and samples
   * `input` if it is the first, otherwise the texture of the target the
   * previous pass wrote. The cursor ends on the last target written.
   */
  lemma {:induction false} PassesFromAt(effects: seq<Effect>, input: Handle, ping: nat, textures: seq<Handle>)
    requires ping < 2 && |textures| == 2
    ensures |PassesFrom(effects, input, ping, textures)| == |effects|
    ensures forall k :: 0 <= k < |effects| ==>
              PassesFrom(effects, input, ping, textures)[k]
              == Pass(effects[k], if k == 0 then input else textures[(ping + k - 1) % 2], (ping + k) % 2)
    ensures OutputFrom(effects, input, ping, textures)
            == if effects == [] then input else textures[(ping + |effects| - 1) % 2]
    decreases |effects|
  {
    if effects != [] {
      var rest := effects[1..];
      PassesFromAt(rest, textures[ping], 1 - ping, textures);
      var ps := PassesFrom(effects, input, ping, textures);
      forall k | 0 <= k < |effects|
        ensures ps[k] == Pass(effects[k], if k == 0 then input else textures[(ping + k - 1) % 2], (ping + k) % 2)
      {
        if k > 0 {
          assert ps[k] == PassesFrom(rest, textures[ping], 1 - ping, textures)[k - 1];
          assert (1 - ping + k - 1) % 2 == (ping + k) % 2;
          if k > 1 {
            assert (1 - ping + k - 2) % 2 == (ping + k - 1) % 2;
          }
        }
      }
      if rest != [] {
        assert (1 - ping + |rest| - 1) % 2 == (ping + |effects| - 1) % 2;
      }
    }
  }

  /**
   * The chain as run: the first pass samples the resolved scene, every
   * later pass samples what the pass before it wrote, the targets alternate
   * 0, 1, 0, and the gamma pass samples the last target written, or the
   * resolved scene when no effect is enabled.
   */
  lemma PassesChain(effects: seq<Effect>, source: Handle, textures: seq<Handle>)
    requires |textures| == 2
    ensures |Passes(effects, source, textures)| == |effects|
    ensures effects != [] ==> Passes(effects, source, textures)[0].input == source
    ensures forall k :: 0 < k < |effects| ==>
              Passes(effects, source, textures)[k].input == textures[Passes(effects, source, textures)[k - 1].target]
    ensures forall k :: 0 <= k < |effects| ==>
              Passes(effects, source, textures)[k].target == k % 2 && Passes(effects, source, textures)[k].effect == effects[k]
    ensures Output(effects, source, textures)
            == if effects == [] then source else textures[Passes(effects, source, textures)[|effects| - 1].target]
  {
    PassesFromAt(effects, source, 0, textures);
  }

  /**
   * When the resolved scene and the two targets are three different
   * textures, no pass samples the texture it writes.
   */
  lemma NoPassReadsItsTarget(effects: seq<Effect>, source: Handle, textures: seq<Handle>)
    requires |textures| == 2 && source != textures[0] && source != textures[1] && textures[0] != textures[1]
    ensures forall k :: 0 <= k < |effects| ==>
              Passes(effects, source, textures)[k].input != textures[Passes(effects, source, textures)[k].target]
  {
    PassesFromAt(effects, source, 0, textures);
    forall k | 0 < k < |effects|
      ensures (k - 1) % 2 != k % 2
    {
    }
  }

  /** One more effect at the end of the chain adds one pass that samples the old output. */
  lemma {:induction false} PassesSnoc(effects: seq<Effect>, e: Effect, input: Handle, ping: nat, textures: seq<Handle>)
    requires ping < 2 && |textures| == 2
    ensures PassesFrom(effects + [e], input, ping, textures)
            == PassesFrom(effects, input, ping, textures) + [Pass(e, OutputFrom(effects, input, ping, textures), (ping + |effects|) % 2)]
    ensures OutputFrom(effects + [e], input, ping, textures) == textures[(ping + |effects|) % 2]
    decreases |effects|
  {
    if effects == [] {
      assert [e][1..] == [];
    } else {
      assert (effects + [e])[0] == effects[0] && (effects + [e])[1..] == effects[1..] + [e];
      PassesSnoc(effects[1..], e, textures[ping], 1 - ping, textures);
      assert (1 - ping + |effects| - 1) % 2 == (ping + |effects|) % 2;
    }
  }

  // ---------------------------------------------------------------------
  // The calls of the chain
  // ---------------------------------------------------------------------

  /** What the chain reads from the demo: shaders, effect parameters, viewport, clock and toggles. */
  datatype Settings = Settings(
    chromaticShader: CompiledShader, vignetteShader: CompiledShader, grainShader: CompiledShader, gammaShader: CompiledShader,
    chromaticStrength: real, vignetteIntensity: real, vignetteRadius: real, vignetteSoftness: real,
    grainIntensity: real, scanlineIntensity: real,
    enableChromatic: bool, enableVignette: bool, enableGrain: bool, enableGamma: bool, gammaValue: real,
    viewportSize: IVec2, time: real, fullscreenVao: Handle)

  /** The viewport covering the window. */
  function FullViewport(size: IVec2): Rect {
    Rect(IVec2(0, 0), size)
  }

  /** `setPostCommonUniforms`: sampler unit 0, texel size, resolution and time, each only if the shader has it. */
  function CommonUniforms(shader: CompiledShader, size: IVec2, time: real): seq<Event>
    requires size.x != 0 && size.y != 0
  {
    UniformEvents(shader, "uInput", IntValue(0))
    + UniformEvents(shader, "uTexelSize", Vec2Value(Vec2(1.0 / size.x as real, 1.0 / size.y as real)))
    + UniformEvents(shader, "uResolution", Vec2Value(Vec2(size.x as real, size.y as real)))
    + UniformEvents(shader, "uTime", FloatValue(time))
  }

  /** `drawFullscreenPass`: the common uniforms, `input` on unit 0, one three-vertex triangle. */
  function FullscreenEvents(shader: CompiledShader, input: Handle, size: IVec2, time: real): seq<Event>
    requires size.x != 0 && size.y != 0
  {
    CommonUniforms(shader, size, time) + [ActiveTexture(0), BindTexture(input), DrawArrays(3)]
  }

  function EffectShader(s: Settings, e: Effect): CompiledShader {
    match e
    case Chromatic => s.chromaticShader
    case Vignette => s.vignetteShader
    case Grain => s.grainShader
  }

  /** The effect's own parameters. */
  function EffectUniforms(s: Settings, e: Effect): seq<Event> {
    match e
    case Chromatic => UniformEvents(s.chromaticShader, "uStrength", FloatValue(s.chromaticStrength))
    case Vignette =>
      UniformEvents(s.vignetteShader, "uIntensity", FloatValue(s.vignetteIntensity))
      + UniformEvents(s.vignetteShader, "uRadius", FloatValue(s.vignetteRadius))
      + UniformEvents(s.vignetteShader, "uSoftness", FloatValue(s.vignetteSoftness))
    case Grain =>
      UniformEvents(s.grainShader, "uGrainIntensity", FloatValue(s.grainIntensity))
      + UniformEvents(s.grainShader, "uScanlineIntensity", FloatValue(s.scanlineIntensity))
  }

  /** Binding `framebuffer`, the full viewport, and a colour clear. */
  function TargetEvents(framebuffer: Handle, size: IVec2): seq<Event> {
    [BindFramebuffer(framebuffer), SetViewport(FullViewport(size)), Clear(ColorBit)]
  }

  /** One effect pass into ping-pong target `p.target`. */
  function PassEvents(s: Settings, p: Pass, framebuffers: seq<Handle>): seq<Event>
    requires s.viewportSize.x != 0 && s.viewportSize.y != 0 && p.target < |framebuffers|
  {
    TargetEvents(framebuffers[p.target], s.viewportSize) + [UseProgram(EffectShader(s, p.effect).program)]
    + EffectUniforms(s, p.effect) + FullscreenEvents(EffectShader(s, p.effect), p.input, s.viewportSize, s.time)
  }

  function PassesEvents(s: Settings, ps: seq<Pass>, framebuffers: seq<Handle>): seq<Event>
    requires s.viewportSize.x != 0 && s.viewportSize.y != 0
    requires forall k :: 0 <= k < |ps| ==> ps[k].target < |framebuffers|
    decreases |ps|
  {
    if ps == [] then [] else PassesEvents(s, ps[..|ps| - 1], framebuffers) + PassEvents(s, ps[|ps| - 1], framebuffers)
  }

  /** The gamma exponent: the configured value when gamma correction is on, 1 (no change) when off. */
  function GammaExponent(s: Settings): (g: real)
    ensures s.enableGamma ==> g == s.gammaValue
    ensures !s.enableGamma ==> g == 1.0
  {
    if s.enableGamma then s.gammaValue else 1.0
  }

  /** The gamma pass: into the default framebuffer, sampling `input`. */
  function GammaEvents(s: Settings, input: Handle): seq<Event>
    requires s.viewportSize.x != 0 && s.viewportSize.y != 0
  {
    TargetEvents(0, s.viewportSize) + [UseProgram(s.gammaShader.program)]
    + UniformEvents(s.gammaShader, "uGamma", FloatValue(GammaExponent(s)))
    + FullscreenEvents(s.gammaShader, input, s.viewportSize, s.time)
  }

  /** Depth test, depth writes and blending off, and the fullscreen vertex array bound. */
  function PostPrologue(s: Settings): seq<Event> {
    [Disable(DepthTest), DepthMask(false), Disable(Blend), BindVertexArray(s.fullscreenVao)]
  }

  /** Every call of `runPostProcessing`, given the resolved texture and the two targets. */
  function PostEvents(s: Settings, source: Handle, textures: seq<Handle>, framebuffers: seq<Handle>): seq<Event>
    requires s.viewportSize.x != 0 && s.viewportSize.y != 0 && |textures| == 2 && |framebuffers| == 2
  {
    var effects := Stages(s.enableChromatic, s.enableVignette, s.enableGrain);
    PostPrologue(s)
    + PassesEvents(s, Passes(effects, source, textures), framebuffers)
    + GammaEvents(s, Output(effects, source, textures))
    + [BindVertexArray(0), DepthMask(true)]
  }

  /** Extending the pass list by one extends its calls by that pass's calls. */
  lemma PassesEventsSnoc(s: Settings, ps: seq<Pass>, p: Pass, framebuffers: seq<Handle>)
    requires s.viewportSize.x != 0 && s.viewportSize.y != 0
    requires forall k :: 0 <= k < |ps| ==> ps[k].target < |framebuffers|
    requires p.target < |framebuffers|
    ensures PassesEvents(s, ps + [p], framebuffers) == PassesEvents(s, ps, framebuffers) + PassEvents(s, p, framebuffers)
  {
    assert (ps + [p])[..|ps|] == ps;
  }
}
