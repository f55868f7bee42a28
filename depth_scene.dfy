/**
 * The scene of the depth-and-post demo (`DemoDepthPost`) as values: its
 * render items and animated layers, the draw orders, the fog animation, and
 * the calls that draw the items. The demo's class, which owns this state and
 * updates it in place, is in module DepthPost.
 */
module DepthScene {
  import opened Vec2
  import opened GL
  import opened DrawOrdering

  /** How opaque items are ordered: by depth ascending, descending, or shuffled. */
  datatype DrawOrder = FrontToBack | BackToFront | Random

  /** One quad of the scene. `depth` is a float in the source. */
  datatype RenderItem = RenderItem(position: Vec2, size: Vec2, rotation: real, depth: real, texture: Handle, tint: Rgba)

  /** A transparent item that drifts sideways: its position in the list, where it rests, and how it moves. */
  datatype AnimatedLayer = AnimatedLayer(index: nat, basePosition: Vec2, speed: real, amplitude: real)

  /** `std::clamp(v, lo, hi)`. */
  function Clamp(v: real, lo: real, hi: real): (r: real)
    requires lo <= hi
    ensures lo <= r <= hi
    ensures lo <= v <= hi ==> r == v
    ensures v < lo ==> r == lo
    ensures hi < v ==> r == hi
  {
    if v < lo then lo else if hi < v then hi else v
  }

  /** The depths of `items`, by position. */
  function Depths(items: seq<RenderItem>): (keys: seq<real>)
    ensures |keys| == |items| && forall k :: 0 <= k < |items| ==> keys[k] == items[k].depth
  {
    seq(|items|, k requires 0 <= k < |items| => items[k].depth)
  }

  // ---------------------------------------------------------------------
  // Draw orders
  // ---------------------------------------------------------------------

  /**
   * The order of the opaque items for `mode`: their indices sorted by depth
   * ascending (front to back), descending (back to front), or shuffled with
   * the generator's `picks`.
   */
  function OpaqueOrder(mode: DrawOrder, items: seq<RenderItem>, picks: seq<nat>): seq<nat> {
    match mode
    case FrontToBack => SortedIndices(Depths(items), true)
    case BackToFront => SortedIndices(Depths(items), false)
    case Random => Shuffle(Iota(|items|), picks)
  }

  /** The order of the transparent items: farthest (largest depth) first, whatever the mode. */
  function TransparentOrder(items: seq<RenderItem>): seq<nat> {
    SortedIndices(Depths(items), false)
  }

  /** The opaque order holds every item index exactly once, whatever the mode. */
  lemma OpaqueOrderPermutes(mode: DrawOrder, items: seq<RenderItem>, picks: seq<nat>)
    ensures IndexPermutation(OpaqueOrder(mode, items, picks), |items|)
    ensures InRange(OpaqueOrder(mode, items, picks), |items|) && |OpaqueOrder(mode, items, picks)| == |items|
  {
    match mode
    case FrontToBack =>
      SortedIndicesSpec(Depths(items), true);
    case BackToFront =>
      SortedIndicesSpec(Depths(items), false);
    case Random =>
      ShuffledIndicesSpec(|items|, picks, []);
      PermutationIndices(OpaqueOrder(mode, items, picks), |items|);
  }

  /** Front to back, depths never decrease along the opaque order. */
  lemma FrontToBackSorted(items: seq<RenderItem>, picks: seq<nat>)
    ensures InRange(OpaqueOrder(FrontToBack, items, picks), |items|) && |OpaqueOrder(FrontToBack, items, picks)| == |items|
    ensures forall i, j :: 0 <= i < j < |items| ==>
              items[OpaqueOrder(FrontToBack, items, picks)[i]].depth <= items[OpaqueOrder(FrontToBack, items, picks)[j]].depth
  {
    SortedIndicesSpec(Depths(items), true);
  }

  /** Back to front, depths never increase along the opaque order. */
  lemma BackToFrontSorted(items: seq<RenderItem>, picks: seq<nat>)
    ensures InRange(OpaqueOrder(BackToFront, items, picks), |items|) && |OpaqueOrder(BackToFront, items, picks)| == |items|
    ensures forall i, j :: 0 <= i < j < |items| ==>
              items[OpaqueOrder(BackToFront, items, picks)[i]].depth >= items[OpaqueOrder(BackToFront, items, picks)[j]].depth
  {
    SortedIndicesSpec(Depths(items), false);
  }

  /** A shuffled opaque order may be any rearrangement of the item indices. */
  lemma RandomReachesAll(items: seq<RenderItem>, p: seq<nat>)
    requires IndexPermutation(p, |items|)
    ensures exists ps :: OpaqueOrder(Random, items, ps) == p
  {
    ShuffledIndicesSpec(|items|, [], p);
    var ps :| Shuffle(Iota(|items|), ps) == p;
    assert OpaqueOrder(Random, items, ps) == p;
  }

  /** The transparent order holds every item index exactly once, farthest first. */
  lemma TransparentOrderSpec(items: seq<RenderItem>)
    ensures IndexPermutation(TransparentOrder(items), |items|)
    ensures InRange(TransparentOrder(items), |items|) && |TransparentOrder(items)| == |items|
    ensures forall i, j :: 0 <= i < j < |items| ==>
              items[TransparentOrder(items)[i]].depth >= items[TransparentOrder(items)[j]].depth
  {
    SortedIndicesSpec(Depths(items), false);
  }

  // ---------------------------------------------------------------------
  // Fog animation
  // ---------------------------------------------------------------------

  /**
   * One layer's step of `updateAnimatedLayers`: the item it names, if there
   * is one, moves to the layer's rest x plus sin(time * speed) * amplitude.
   */
  function Animate(items: seq<RenderItem>, layer: AnimatedLayer, time: real, sin: real -> real): seq<RenderItem> {
    if layer.index >= |items| then items
    else
      var item := items[layer.index];
      items[layer.index := item.(position := Vec2(layer.basePosition.x + Drift(layer, time, sin), item.position.y))]
  }

  /** How far a layer has drifted from its rest x at `time`. */
  function Drift(layer: AnimatedLayer, time: real, sin: real -> real): real {
    sin(time * layer.speed) * layer.amplitude
  }

  /** Every layer's step, in list order. */
  function AnimateAll(items: seq<RenderItem>, layers: seq<AnimatedLayer>, time: real, sin: real -> real): seq<RenderItem>
    decreases |layers|
  {
    if layers == [] then items else AnimateAll(Animate(items, layers[0], time, sin), layers[1..], time, sin)
  }

  /** `b` is `a` with at most the x of its position changed. */
  predicate OnlyXMoved(a: RenderItem, b: RenderItem) {
    b == a.(position := Vec2(b.position.x, a.position.y))
  }

  /** The item a layer names moves to the layer's rest x plus the drift, and only its x changes. */
  lemma AnimateMoves(items: seq<RenderItem>, layer: AnimatedLayer, time: real, sin: real -> real)
    requires layer.index < |items|
    ensures Animate(items, layer, time, sin)[layer.index].position.x == layer.basePosition.x + Drift(layer, time, sin)
    ensures OnlyXMoved(items[layer.index], Animate(items, layer, time, sin)[layer.index])
  {}

  /**
   * A layer whose index is out of range changes nothing; otherwise only the
   * x position of the item it names changes, to the rest x plus the drift.
   */
  lemma AnimateSpec(items: seq<RenderItem>, layer: AnimatedLayer, time: real, sin: real -> real)
    ensures layer.index >= |items| ==> Animate(items, layer, time, sin) == items
    ensures |Animate(items, layer, time, sin)| == |items|
    ensures forall k :: 0 <= k < |items| && k != layer.index ==> Animate(items, layer, time, sin)[k] == items[k]
    ensures layer.index < |items| ==>
              OnlyXMoved(items[layer.index], Animate(items, layer, time, sin)[layer.index])
              && Animate(items, layer, time, sin)[layer.index].position.x
                 == layer.basePosition.x + Drift(layer, time, sin)
  {
    if layer.index < |items| {
      AnimateMoves(items, layer, time, sin);
    }
  }

  /**
   * The animation keeps the number of items, changes at most the x position
   * of each, and leaves every item that no layer names untouched.
   */
  lemma {:induction false} AnimateAllSpec(items: seq<RenderItem>, layers: seq<AnimatedLayer>, time: real, sin: real -> real)
    ensures |AnimateAll(items, layers, time, sin)| == |items|
    ensures forall k :: 0 <= k < |items| ==> OnlyXMoved(items[k], AnimateAll(items, layers, time, sin)[k])
    ensures forall k :: 0 <= k < |items| && (forall l :: 0 <= l < |layers| ==> layers[l].index != k) ==>
              AnimateAll(items, layers, time, sin)[k] == items[k]
    decreases |layers|
  {
    if layers != [] {
      var next := Animate(items, layers[0], time, sin);
      AnimateSpec(items, layers[0], time, sin);
      AnimateAllSpec(next, layers[1..], time, sin);
      forall k | 0 <= k < |items| && (forall l :: 0 <= l < |layers| ==> layers[l].index != k)
        ensures AnimateAll(items, layers, time, sin)[k] == items[k]
      {
        forall l | 0 <= l < |layers[1..]|
          ensures layers[1..][l].index != k
        {
          assert layers[1..][l] == layers[l + 1];
        }
      }
    }
  }

  // ---------------------------------------------------------------------
  // Drawing the items
  // ---------------------------------------------------------------------

  /** `build_transform`: translation times rotation times scale. */
  function SpriteTransform(item: RenderItem): Mat3 {
    Product(Product(Translation(item.position), Rotation(item.rotation)), Scaling(item.size))
  }

  /** The texture a sprite is drawn with: its own, or the white texture in place of none. */
  function SpriteTexture(item: RenderItem, white: Handle): (t: Handle)
    ensures item.texture != 0 ==> t == item.texture
    ensures item.texture == 0 ==> t == white
  {
    if item.texture == 0 then white else item.texture
  }

  /** The calls of `drawSprite`: model matrix, depth and tint when the shader has them, then the draw. */
  function SpriteEvents(shader: CompiledShader, white: Handle, item: RenderItem): seq<Event> {
    SpriteSetup(shader, white, item) + [DrawElements(6)]
  }

  /** The sprites of `items` in `order`. */
  function SpritesEvents(shader: CompiledShader, white: Handle, items: seq<RenderItem>, order: seq<nat>): seq<Event>
    requires InRange(order, |items|)
    decreases |order|
  {
    if order == [] then []
    else SpritesEvents(shader, white, items, order[..|order| - 1]) + SpriteEvents(shader, white, items[order[|order| - 1]])
  }

  /** The clear colour of the scene pass. */
  const SceneClearColor := Color(0.05, 0.07, 0.10, 1.0)

  /**
   * The calls of `renderSceneToMsaa`: bind the MSAA framebuffer, depth test
   * and depth writes on, blending off, clear, set the sprite shader's
   * uniforms, draw the opaque items in order, then blending on and depth
   * writes off for the transparent items, and finally depth writes back on.
   */
  function SceneEvents(framebuffer: Handle, viewportSize: IVec2, shader: CompiledShader, quadVao: Handle, white: Handle,
                       opaqueItems: seq<RenderItem>, opaqueOrder: seq<nat>, transparentItems: seq<RenderItem>, transparentOrder: seq<nat>): seq<Event>
    requires InRange(opaqueOrder, |opaqueItems|) && InRange(transparentOrder, |transparentItems|)
  {
    ScenePrologue(framebuffer, viewportSize, shader, quadVao)
    + SpritesEvents(shader, white, opaqueItems, opaqueOrder)
    + TransparentPass(shader, white, transparentItems, transparentOrder)
  }

  /** Blending on and depth writes off, the transparent items, then depth writes on and the bindings undone. */
  function TransparentPass(shader: CompiledShader, white: Handle, transparentItems: seq<RenderItem>, transparentOrder: seq<nat>): seq<Event>
    requires InRange(transparentOrder, |transparentItems|)
  {
    [Enable(Blend)] + [DepthMask(false)]
    + SpritesEvents(shader, white, transparentItems, transparentOrder)
    + ([DepthMask(true)] + [BindVertexArray(0), BindFramebuffer(0)])
  }

  /** The calls before the first sprite of the scene pass. */
  function ScenePrologue(framebuffer: Handle, viewportSize: IVec2, shader: CompiledShader, quadVao: Handle): seq<Event> {
    [BindFramebuffer(framebuffer), SetViewport(Rect(IVec2(0, 0), viewportSize))]
    + DepthSetup()
    + SceneSetup(viewportSize, shader, quadVao)
  }

  /** Depth test and depth writes on, blending off. */
  function DepthSetup(): seq<Event> {
    [Enable(DepthTest)] + [DepthMask(true)] + [Disable(Blend)]
  }

  /** The clear, the sprite program with its per-pass uniforms, and the quad. */
  function SceneSetup(viewportSize: IVec2, shader: CompiledShader, quadVao: Handle): seq<Event> {
    [SetClearColor(SceneClearColor), Clear(ColorBit + DepthBit), UseProgram(shader.program)]
    + UniformEvents(shader, "uViewProjection", Floats(ColumnMajor9(Ndc(viewportSize))))
    + UniformEvents(shader, "uTexture", IntValue(0))
    + [BindVertexArray(quadVao)]
  }

  // ---------------------------------------------------------------------
  // The fixed-function state each draw sees
  // ---------------------------------------------------------------------

  /** Depth test, depth writes and blending, as set by the calls so far. */
  datatype Pipeline = Pipeline(depthTest: bool, depthWrite: bool, blend: bool)

  /** The pipeline after one call. */
  function After(p: Pipeline, e: Event): Pipeline {
    match e
    case Enable(cap) => if cap == DepthTest then p.(depthTest := true) else p.(blend := true)
    case Disable(cap) => if cap == DepthTest then p.(depthTest := false) else p.(blend := false)
    case DepthMask(write) => p.(depthWrite := write)
    case _ => p
  }

  /** The pipeline after a list of calls. */
  function Final(p: Pipeline, es: seq<Event>): Pipeline
    decreases |es|
  {
    if es == [] then p else Final(After(p, es[0]), es[1..])
  }

  /** The pipeline at each indexed draw (`DrawElements`) among `es`, in order. */
  function DrawStates(p: Pipeline, es: seq<Event>): seq<Pipeline>
    decreases |es|
  {
    if es == [] then []
    else (if es[0].DrawElements? then [p] else []) + DrawStates(After(p, es[0]), es[1..])
  }

  /** Replaying a concatenation replays its halves in turn. */
  lemma {:induction false} ReplayAppend(p: Pipeline, a: seq<Event>, b: seq<Event>)
    ensures Final(p, a + b) == Final(Final(p, a), b)
    ensures DrawStates(p, a + b) == DrawStates(p, a) + DrawStates(Final(p, a), b)
    decreases |a|
  {
    if a != [] {
      var q := After(p, a[0]);
      assert (a + b)[0] == a[0] && (a + b)[1..] == a[1..] + b;
      ReplayAppend(q, a[1..], b);
      AppendAssoc(if a[0].DrawElements? then [p] else [], DrawStates(q, a[1..]), DrawStates(Final(q, a[1..]), b));
    } else {
      assert a + b == b;
    }
  }

  /** One call replayed. */
  lemma Single(p: Pipeline, e: Event)
    ensures Final(p, [e]) == After(p, e)
    ensures DrawStates(p, [e]) == if e.DrawElements? then [p] else []
  {
    assert [e][1..] == [];
  }

  /** A call that neither draws nor touches depth test, depth writes or blending. */
  predicate Quiet(e: Event) {
    !e.Enable? && !e.Disable? && !e.DepthMask? && !e.DrawElements?
  }

  /** Quiet calls draw nothing and leave the pipeline as it was. */
  lemma {:induction false} QuietReplay(p: Pipeline, es: seq<Event>)
    requires forall k :: 0 <= k < |es| ==> Quiet(es[k])
    ensures Final(p, es) == p && DrawStates(p, es) == []
    decreases |es|
  {
    if es != [] {
      QuietReplay(p, es[1..]);
    }
  }

  /** `n` copies of `p`. */
  function Repeat(p: Pipeline, n: nat): (r: seq<Pipeline>)
    ensures |r| == n && forall k :: 0 <= k < n ==> r[k] == p
  {
    if n == 0 then [] else Repeat(p, n - 1) + [p]
  }

  /** The calls before a sprite's draw. */
  function SpriteSetup(shader: CompiledShader, white: Handle, item: RenderItem): seq<Event> {
    UniformEvents(shader, "uModel", Floats(ColumnMajor9(SpriteTransform(item))))
    + UniformEvents(shader, "uDepth", FloatValue(item.depth))
    + UniformEvents(shader, "uTintColor", ColorValue(item.tint))
    + [ActiveTexture(0), BindTexture(SpriteTexture(item, white))]
  }

  /** A sprite's setup calls are quiet. */
  lemma SpriteSetupReplay(p: Pipeline, shader: CompiledShader, white: Handle, item: RenderItem)
    ensures Final(p, SpriteSetup(shader, white, item)) == p
    ensures DrawStates(p, SpriteSetup(shader, white, item)) == []
  {
    var a := UniformEvents(shader, "uModel", Floats(ColumnMajor9(SpriteTransform(item))));
    var b := UniformEvents(shader, "uDepth", FloatValue(item.depth));
    var c := UniformEvents(shader, "uTintColor", ColorValue(item.tint));
    var d := [ActiveTexture(0), BindTexture(SpriteTexture(item, white))];
    QuietReplay(p, a);
    QuietReplay(p, b);
    QuietReplay(p, c);
    QuietReplay(p, d);
    ReplayThen(p, a, b, p, p, [], []);
    ReplayThen(p, a + b, c, p, p, [], []);
    ReplayThen(p, a + b + c, d, p, p, [], []);
  }

  /** A sprite draws once and leaves the pipeline as it found it. */
  lemma SpriteReplay(p: Pipeline, shader: CompiledShader, white: Handle, item: RenderItem)
    ensures Final(p, SpriteEvents(shader, white, item)) == p
    ensures DrawStates(p, SpriteEvents(shader, white, item)) == [p]
  {
    SpriteSetupReplay(p, shader, white, item);
    Single(p, DrawElements(6));
    ReplayThen(p, SpriteSetup(shader, white, item), [DrawElements(6)], p, p, [], [p]);
  }

  /** Every sprite in `order` draws once, each under the pipeline it started with, which it leaves unchanged. */
  lemma {:induction false} SpritesReplay(p: Pipeline, shader: CompiledShader, white: Handle, items: seq<RenderItem>, order: seq<nat>)
    requires InRange(order, |items|)
    ensures Final(p, SpritesEvents(shader, white, items, order)) == p
    ensures DrawStates(p, SpritesEvents(shader, white, items, order)) == Repeat(p, |order|)
    decreases |order|
  {
    if order != [] {
      var init := order[..|order| - 1];
      SpritesReplay(p, shader, white, items, init);
      SpriteReplay(p, shader, white, items[order[|order| - 1]]);
      ReplayAppend(p, SpritesEvents(shader, white, items, init), SpriteEvents(shader, white, items[order[|order| - 1]]));
    }
  }

  /** The depth setup leaves depth test and writes on and blending off, whatever came before. */
  lemma DepthSetupReplay(p: Pipeline)
    ensures Final(p, DepthSetup()) == Pipeline(true, true, false)
    ensures DrawStates(p, DepthSetup()) == []
  {
    var p1 := After(p, Enable(DepthTest));
    var p2 := After(p1, DepthMask(true));
    Single(p, Enable(DepthTest));
    Single(p1, DepthMask(true));
    Single(p2, Disable(Blend));
    ReplayThen(p, [Enable(DepthTest)], [DepthMask(true)], p1, p2, [], []);
    ReplayThen(p, [Enable(DepthTest)] + [DepthMask(true)], [Disable(Blend)], p2, After(p2, Disable(Blend)), [], []);
  }

  /** The scene setup is quiet. */
  lemma SceneSetupReplay(q: Pipeline, viewportSize: IVec2, shader: CompiledShader, quadVao: Handle)
    ensures Final(q, SceneSetup(viewportSize, shader, quadVao)) == q
    ensures DrawStates(q, SceneSetup(viewportSize, shader, quadVao)) == []
  {
    var b: seq<Event> := [SetClearColor(SceneClearColor), Clear(ColorBit + DepthBit), UseProgram(shader.program)];
    var c := UniformEvents(shader, "uViewProjection", Floats(ColumnMajor9(Ndc(viewportSize))));
    var d := UniformEvents(shader, "uTexture", IntValue(0));
    var e: seq<Event> := [BindVertexArray(quadVao)];
    QuietReplay(q, b);
    QuietReplay(q, c);
    QuietReplay(q, d);
    QuietReplay(q, e);
    ReplayThen(q, b, c, q, q, [], []);
    ReplayThen(q, b + c, d, q, q, [], []);
    ReplayThen(q, b + c + d, e, q, q, [], []);
  }

  /** The calls before the first sprite leave depth test and writes on and blending off, and draw nothing. */
  lemma PrologueReplay(p: Pipeline, framebuffer: Handle, viewportSize: IVec2, shader: CompiledShader, quadVao: Handle)
    ensures Final(p, ScenePrologue(framebuffer, viewportSize, shader, quadVao)) == Pipeline(true, true, false)
    ensures DrawStates(p, ScenePrologue(framebuffer, viewportSize, shader, quadVao)) == []
  {
    var a: seq<Event> := [BindFramebuffer(framebuffer), SetViewport(Rect(IVec2(0, 0), viewportSize))];
    var q := Pipeline(true, true, false);
    QuietReplay(p, a);
    DepthSetupReplay(p);
    SceneSetupReplay(q, viewportSize, shader, quadVao);
    ReplayThen(p, a, DepthSetup(), p, q, [], []);
    ReplayThen(p, a + DepthSetup(), SceneSetup(viewportSize, shader, quadVao), q, q, [], []);
  }

  /** Blending on and depth writes off, as between the opaque and the transparent items. */
  lemma SwitchReplay(p: Pipeline)
    requires p == Pipeline(true, true, false)
    ensures Final(p, [Enable(Blend)] + [DepthMask(false)]) == Pipeline(true, false, true)
    ensures DrawStates(p, [Enable(Blend)] + [DepthMask(false)]) == []
  {
    Single(p, Enable(Blend));
    Single(After(p, Enable(Blend)), DepthMask(false));
    ReplayAppend(p, [Enable(Blend)], [DepthMask(false)]);
  }

  /** Depth writes back on and the bindings undone, after the transparent items. */
  lemma EpilogueReplay(p: Pipeline)
    ensures Final(p, [DepthMask(true)] + [BindVertexArray(0), BindFramebuffer(0)]).depthWrite
    ensures DrawStates(p, [DepthMask(true)] + [BindVertexArray(0), BindFramebuffer(0)]) == []
  {
    Single(p, DepthMask(true));
    QuietReplay(After(p, DepthMask(true)), [BindVertexArray(0), BindFramebuffer(0)]);
    ReplayAppend(p, [DepthMask(true)], [BindVertexArray(0), BindFramebuffer(0)]);
  }

  /** Two replays run back to back. */
  lemma ReplayThen(p: Pipeline, a: seq<Event>, b: seq<Event>, q: Pipeline, r: Pipeline, da: seq<Pipeline>, db: seq<Pipeline>)
    requires Final(p, a) == q && DrawStates(p, a) == da
    requires Final(q, b) == r && DrawStates(q, b) == db
    ensures Final(p, a + b) == r && DrawStates(p, a + b) == da + db
  {
    ReplayAppend(p, a, b);
  }

  /** The opaque items drawn after the prologue. */
  lemma OpaquePassReplay(p: Pipeline, framebuffer: Handle, viewportSize: IVec2, shader: CompiledShader, quadVao: Handle, white: Handle,
                         opaqueItems: seq<RenderItem>, opaqueOrder: seq<nat>)
    requires InRange(opaqueOrder, |opaqueItems|)
    ensures Final(p, ScenePrologue(framebuffer, viewportSize, shader, quadVao) + SpritesEvents(shader, white, opaqueItems, opaqueOrder))
            == Pipeline(true, true, false)
    ensures DrawStates(p, ScenePrologue(framebuffer, viewportSize, shader, quadVao) + SpritesEvents(shader, white, opaqueItems, opaqueOrder))
            == Repeat(Pipeline(true, true, false), |opaqueOrder|)
  {
    var opaqueState := Pipeline(true, true, false);
    PrologueReplay(p, framebuffer, viewportSize, shader, quadVao);
    SpritesReplay(opaqueState, shader, white, opaqueItems, opaqueOrder);
    ReplayThen(p, ScenePrologue(framebuffer, viewportSize, shader, quadVao), SpritesEvents(shader, white, opaqueItems, opaqueOrder),
               opaqueState, opaqueState, [], Repeat(opaqueState, |opaqueOrder|));
  }

  /** The transparent items, with blending on and depth writes off around them. */
  lemma TransparentPassReplay(shader: CompiledShader, white: Handle, transparentItems: seq<RenderItem>, transparentOrder: seq<nat>)
    requires InRange(transparentOrder, |transparentItems|)
    ensures Final(Pipeline(true, true, false), TransparentPass(shader, white, transparentItems, transparentOrder)).depthWrite
    ensures DrawStates(Pipeline(true, true, false), TransparentPass(shader, white, transparentItems, transparentOrder))
            == Repeat(Pipeline(true, false, true), |transparentOrder|)
  {
    var opaqueState := Pipeline(true, true, false);
    var blendState := Pipeline(true, false, true);
    var mid: seq<Event> := [Enable(Blend)] + [DepthMask(false)];
    var t := SpritesEvents(shader, white, transparentItems, transparentOrder);
    var end: seq<Event> := [DepthMask(true)] + [BindVertexArray(0), BindFramebuffer(0)];
    SwitchReplay(opaqueState);
    SpritesReplay(blendState, shader, white, transparentItems, transparentOrder);
    EpilogueReplay(blendState);
    ReplayThen(opaqueState, mid, t, blendState, blendState, [], Repeat(blendState, |transparentOrder|));
    ReplayThen(opaqueState, mid + t, end, blendState, Final(blendState, end), Repeat(blendState, |transparentOrder|), []);
  }

  /**
   * In the scene pass every opaque item is drawn with depth test and depth
   * writes on and blending off, then every transparent item with depth test
   * and blending on and depth writes off; afterwards depth writes are on
   * again. This holds whatever state the pipeline was in before.
   */
  lemma SceneDrawStates(p: Pipeline, framebuffer: Handle, viewportSize: IVec2, shader: CompiledShader, quadVao: Handle, white: Handle,
                        opaqueItems: seq<RenderItem>, opaqueOrder: seq<nat>, transparentItems: seq<RenderItem>, transparentOrder: seq<nat>)
    requires InRange(opaqueOrder, |opaqueItems|) && InRange(transparentOrder, |transparentItems|)
    ensures DrawStates(p, SceneEvents(framebuffer, viewportSize, shader, quadVao, white, opaqueItems, opaqueOrder, transparentItems, transparentOrder))
            == Repeat(Pipeline(true, true, false), |opaqueOrder|) + Repeat(Pipeline(true, false, true), |transparentOrder|)
    ensures Final(p, SceneEvents(framebuffer, viewportSize, shader, quadVao, white, opaqueItems, opaqueOrder, transparentItems, transparentOrder)).depthWrite
  {
    var first := ScenePrologue(framebuffer, viewportSize, shader, quadVao) + SpritesEvents(shader, white, opaqueItems, opaqueOrder);
    var rest := TransparentPass(shader, white, transparentItems, transparentOrder);
    OpaquePassReplay(p, framebuffer, viewportSize, shader, quadVao, white, opaqueItems, opaqueOrder);
    TransparentPassReplay(shader, white, transparentItems, transparentOrder);
    ReplayAppend(p, first, rest);
  }
}
