/**
 * `DemoCameras`: four players in a 2400x1800 world, each followed by a
 * camera, shown in one to four split-screen viewports. Number keys choose
 * the viewport count, Tab cycles the active viewport, Space toggles the
 * active camera between following the player and a first-person view, and
 * Q/E change its zoom. `sin` and `cos` are the standard functions, left
 * uninterpreted.
 */
module Cameras {
  import opened Vec2
  import opened GL
  import opened Text
  import Input
  import IR = ImmediateRenderer

  datatype CameraMode = Follow | FirstPerson

  datatype Player = Player(position: Vec2, rotation: real, speed: real, color: Rgba, name: string)

  datatype Camera = Camera(position: Vec2, rotation: real, zoom: real, targetZoom: real, mode: CameraMode, caption: string)

  /** A rectangle of the window in pixels: its lower-left corner and its size. */
  datatype Viewport = Viewport(origin: IVec2, size: IVec2)

  /** A default-constructed `Player`: at the origin, facing +x, speed 240. */
  const DefaultPlayer := Player(Vec2(0.0, 0.0), 0.0, 240.0, RawRgba(0), "")

  /** A default-constructed `Camera`: zoom and target zoom 1, following its player. */
  const DefaultCamera := Camera(Vec2(0.0, 0.0), 0.0, 1.0, 1.0, Follow, "")

  /**
   * The demo's line-and-point renderer: a shader, a vertex array and buffer,
   * and the locations of its two uniforms, -1 when the shader lacks one.
   */
  datatype PrimitiveRenderer = PrimitiveRenderer(shader: CompiledShader, vao: Handle, vbo: Handle, mvpLocation: int, pointSizeLocation: int)

  /** A `PrimitiveRenderer` before `Init`. */
  const FreshPrimitiveRenderer := PrimitiveRenderer(NoShader, 0, 0, -1, -1)

  /** The size of the world the players move in. */
  const WorldSize := Vec2(2400.0, 1800.0)

  /** How far from the world's edge a player must stay. */
  const Margin: real := 40.0

  /** `std::numbers::pi`. */
  const Pi: real := 3.141592653589793

  // ---------------------------------------------------------------------
  // Split-screen layout
  // ---------------------------------------------------------------------

  /** Pixel `p` lies inside viewport `v`. */
  predicate Covers(v: Viewport, p: IVec2) {
    v.origin.x <= p.x < v.origin.x + v.size.x && v.origin.y <= p.y < v.origin.y + v.size.y
  }

  /** Pixel `p` lies inside a window of size `window`. */
  predicate InWindow(window: IVec2, p: IVec2) {
    0 <= p.x < window.x && 0 <= p.y < window.y
  }

  /**
   * The viewports of `buildViewportLayout` for `count` views of a window:
   * the whole window; left and right halves; a wide left column of width
   * `big` beside a right column split into a top and a bottom tile; or, for
   * four and for any other count, the four quadrants (top row first).
   * The demo passes `WideWidth(window.x)` as `big`.
   */
  function Layout(count: int, window: IVec2, big: int): (vs: seq<Viewport>)
    ensures |vs| == if 1 <= count <= 4 then count else 4
  {
    var halfWidth := TruncDiv(window.x, 2);
    var halfHeight := TruncDiv(window.y, 2);
    if count == 1 then
      [Viewport(IVec2(0, 0), window)]
    else if count == 2 then
      [ Viewport(IVec2(0, 0), IVec2(halfWidth, window.y)),
        Viewport(IVec2(halfWidth, 0), IVec2(window.x - halfWidth, window.y)) ]
    else if count == 3 then
      [ Viewport(IVec2(0, 0), IVec2(big, window.y)),
        Viewport(IVec2(big, halfHeight), IVec2(window.x - big, window.y - halfHeight)),
        Viewport(IVec2(big, 0), IVec2(window.x - big, halfHeight)) ]
    else
      [ Viewport(IVec2(0, halfHeight), IVec2(halfWidth, window.y - halfHeight)),
        Viewport(IVec2(halfWidth, halfHeight), IVec2(window.x - halfWidth, window.y - halfHeight)),
        Viewport(IVec2(0, 0), IVec2(halfWidth, halfHeight)),
        Viewport(IVec2(halfWidth, 0), IVec2(window.x - halfWidth, halfHeight)) ]
  }

  /** `static_cast<int>(window_size.x * 0.66)`: the width of the wide tile of the three-view layout. */
  function WideWidth(x: int): int
  {
    TruncReal(x as real * 0.66)
  }

  /** The width of the wide tile computed with exact arithmetic lies within the window. */
  lemma BigWidthInRange(x: int)
    requires 0 <= x
    ensures 0 <= WideWidth(x) <= x
  {
    assert x as real * 0.66 <= x as real;
  }

  /**
   * The viewports tile the window: every size is non-negative, every pixel
   * of the window lies in some viewport, no pixel lies in two, and no
   * viewport reaches outside the window. For three views this holds for any
   * wide-tile width within the window.
   */
  lemma LayoutPartitions(count: int, window: IVec2, big: int)
    requires 0 <= window.x && 0 <= window.y
    requires count == 3 ==> 0 <= big <= window.x
    ensures forall i :: 0 <= i < |Layout(count, window, big)| ==>
              Layout(count, window, big)[i].size.x >= 0 && Layout(count, window, big)[i].size.y >= 0
    ensures forall p :: InWindow(window, p) ==>
              exists i :: 0 <= i < |Layout(count, window, big)| && Covers(Layout(count, window, big)[i], p)
    ensures forall i, j, p :: 0 <= i < j < |Layout(count, window, big)| && Covers(Layout(count, window, big)[i], p) ==>
              !Covers(Layout(count, window, big)[j], p)
    ensures forall i, p :: 0 <= i < |Layout(count, window, big)| && Covers(Layout(count, window, big)[i], p) ==>
              InWindow(window, p)
  {
    var vs := Layout(count, window, big);
    var hw := TruncDiv(window.x, 2);
    var hh := TruncDiv(window.y, 2);
    assert hw == window.x / 2 && hh == window.y / 2;
    assert 0 <= hw <= window.x && 0 <= hh <= window.y;
    forall p | InWindow(window, p)
      ensures exists i :: 0 <= i < |vs| && Covers(vs[i], p)
    {
      if count == 1 {
        assert Covers(vs[0], p);
      } else if count == 2 {
        if p.x < hw { assert Covers(vs[0], p); } else { assert Covers(vs[1], p); }
      } else if count == 3 {
        if p.x < big { assert Covers(vs[0], p); }
        else if p.y >= hh { assert Covers(vs[1], p); }
        else { assert Covers(vs[2], p); }
      } else {
        if p.y >= hh {
          if p.x < hw { assert Covers(vs[0], p); } else { assert Covers(vs[1], p); }
        } else {
          if p.x < hw { assert Covers(vs[2], p); } else { assert Covers(vs[3], p); }
        }
      }
    }
  }

  /**
   * The layout `buildViewportLayout` builds for a window partitions it for
   * every count, the three-view one included.
   */
  lemma DemoLayoutPartitions(count: int, window: IVec2)
    requires 0 <= window.x && 0 <= window.y
    ensures forall i :: 0 <= i < |Layout(count, window, WideWidth(window.x))| ==>
              Layout(count, window, WideWidth(window.x))[i].size.x >= 0
              && Layout(count, window, WideWidth(window.x))[i].size.y >= 0
    ensures forall p :: InWindow(window, p) ==>
              exists i :: 0 <= i < |Layout(count, window, WideWidth(window.x))|
                          && Covers(Layout(count, window, WideWidth(window.x))[i], p)
    ensures forall i, j, p :: 0 <= i < j < |Layout(count, window, WideWidth(window.x))|
                              && Covers(Layout(count, window, WideWidth(window.x))[i], p) ==>
              !Covers(Layout(count, window, WideWidth(window.x))[j], p)
    ensures forall i, p :: 0 <= i < |Layout(count, window, WideWidth(window.x))|
                           && Covers(Layout(count, window, WideWidth(window.x))[i], p) ==>
              InWindow(window, p)
  {
    BigWidthInRange(window.x);
    LayoutPartitions(count, window, WideWidth(window.x));
  }

  // ---------------------------------------------------------------------
  // Key handling
  // ---------------------------------------------------------------------

  /** The keys that went down this frame, and the keys held down. */
  datatype Keyboard = Keyboard(justPressed: set<Input.Key>, down: set<Input.Key>)

  /** `std::clamp(v, lo, hi)` on integers. */
  function ClampInt(v: int, lo: int, hi: int): int
    requires lo <= hi
  {
    if v < lo then lo else if hi < v then hi else v
  }

  /**
   * The viewport count after the number keys: the checks run One to Four,
   * each overwriting the last, and the result is clamped into [1, 4].
   */
  function ViewCount(count: int, pressed: set<Input.Key>): (c: int)
    ensures 1 <= c <= 4
    ensures Input.Four in pressed ==> c == 4
    ensures Input.Four !in pressed && Input.Three in pressed ==> c == 3
    ensures Input.Four !in pressed && Input.Three !in pressed && Input.Two in pressed ==> c == 2
    ensures Input.Four !in pressed && Input.Three !in pressed && Input.Two !in pressed && Input.One in pressed ==> c == 1
    ensures Input.One !in pressed && Input.Two !in pressed && Input.Three !in pressed && Input.Four !in pressed && 1 <= count <= 4
            ==> c == count
  {
    var c1 := if Input.One in pressed then 1 else count;
    var c2 := if Input.Two in pressed then 2 else c1;
    var c3 := if Input.Three in pressed then 3 else c2;
    var c4 := if Input.Four in pressed then 4 else c3;
    ClampInt(c4, 1, 4)
  }

  /**
   * The active viewport after the count is applied and Tab is handled:
   * reduced modulo the count, then advanced by one, wrapping to 0 after
   * the last viewport.
   */
  function ActiveAfter(active: int, count: int, tab: bool): (a: int)
    requires 0 <= active && 1 <= count
    ensures 0 <= a < count
    ensures active < count && !tab ==> a == active
    ensures active < count && tab ==> a == if active + 1 == count then 0 else active + 1
  {
    var reduced := active % count;
    ModBounds(active, count);
    ModBounds(reduced + 1, count);
    if tab then (reduced + 1) % count else reduced
  }

  /** `x % n` is `x` when `x` is already below `n`, and `0` when `x == n`. */
  lemma ModBounds(x: int, n: int)
    requires 0 <= x && 1 <= n
    ensures 0 <= x % n < n
    ensures x < n ==> x % n == x
    ensures x == n ==> x % n == 0
  {
  }

  /**
   * Pressing Tab in `presses` frames in a row moves the active viewport on
   * by `presses`, wrapping once past the last; `count` presses bring it back
   * where it was.
   */
  lemma {:induction false} TabCycles(active: int, count: int, presses: nat)
    requires 0 <= active < count && presses <= count
    ensures TabTimes(active, count, presses) == if active + presses < count then active + presses else active + presses - count
    ensures presses == count ==> TabTimes(active, count, presses) == active
    decreases presses
  {
    if presses > 0 {
      TabCycles(active, count, presses - 1);
    }
  }

  /** The active viewport after Tab is pressed in `presses` frames in a row. */
  function TabTimes(active: int, count: int, presses: nat): (a: int)
    requires 0 <= active < count
    ensures 0 <= a < count
    decreases presses
  {
    if presses == 0 then active else ActiveAfter(TabTimes(active, count, presses - 1), count, true)
  }

  /** The other camera mode. */
  function Toggled(mode: CameraMode): (m: CameraMode)
    ensures m != mode
  {
    match mode
    case Follow => FirstPerson
    case FirstPerson => Follow
  }

  /** Toggling twice restores the mode. */
  lemma ToggleTwice(mode: CameraMode)
    ensures Toggled(Toggled(mode)) == mode
  {
  }

  /** The rate at which Q and E change the target zoom, per second. */
  const ZoomRate: real := 1.2

  /**
   * The target zoom after Q (down by `dt * 1.2`, not below 0.5) and then E
   * (up by `dt * 1.2`, not above 3.5), when held.
   */
  function TargetZoom(targetZoom: real, q: bool, e: bool, dt: real): (z: real)
    ensures q && !e ==> z >= 0.5
    ensures e ==> z <= 3.5
    ensures 0.5 <= targetZoom <= 3.5 && 0.0 <= dt ==> 0.5 <= z <= 3.5
    ensures !q && !e ==> z == targetZoom
  {
    var lowered := if q then MaxReal(0.5, targetZoom - dt * ZoomRate) else targetZoom;
    if e then MinReal(3.5, lowered + dt * ZoomRate) else lowered
  }

  function MaxReal(a: real, b: real): real { if a < b then b else a }
  function MinReal(a: real, b: real): real { if a < b then a else b }

  /** The active camera after Space and Q/E. */
  function Controlled(c: Camera, kb: Keyboard, dt: real): Camera {
    var mode := if Input.Space in kb.justPressed then Toggled(c.mode) else c.mode;
    c.(mode := mode, targetZoom := TargetZoom(c.targetZoom, Input.Q in kb.down, Input.E in kb.down, dt))
  }

  // ---------------------------------------------------------------------
  // Players and camera easing
  // ---------------------------------------------------------------------

  /** The keys that steer one player. */
  datatype ControlScheme = ControlScheme(forward: Input.Key, backward: Input.Key, turnLeft: Input.Key, turnRight: Input.Key)

  /** WASD, the arrows, IJKL and the numeric keypad, for players 1 to 4. */
  const Schemes: seq<ControlScheme> := [
    ControlScheme(Input.W, Input.S, Input.A, Input.D),
    ControlScheme(Input.Up, Input.Down, Input.Left, Input.Right),
    ControlScheme(Input.I, Input.K, Input.J, Input.L),
    ControlScheme(Input.Numpad8, Input.Numpad5, Input.Numpad4, Input.Numpad6)
  ]

  /** `std::clamp(v, lo, hi)` on reals. */
  function ClampReal(v: real, lo: real, hi: real): (r: real)
    requires lo <= hi
    ensures lo <= r <= hi
    ensures lo <= v <= hi ==> r == v
  {
    if v < lo then lo else if hi < v then hi else v
  }

  /**
   * One player's step: turn left and/or right at 2 radians per second,
   * move forward and/or back along the new heading at the player's speed,
   * then clamp the position into the world less a 40-unit margin.
   */
  function Steered(p: Player, scheme: ControlScheme, down: set<Input.Key>, dt: real,
                   sin: real -> real, cos: real -> real, world: Vec2): (q: Player)
    requires 2.0 * Margin <= world.x && 2.0 * Margin <= world.y
    ensures Margin <= q.position.x <= world.x - Margin
    ensures Margin <= q.position.y <= world.y - Margin
    ensures q.speed == p.speed && q.color == p.color && q.name == p.name
  {
    var r1 := if scheme.turnLeft in down then p.rotation + dt * 2.0 else p.rotation;
    var r2 := if scheme.turnRight in down then r1 - dt * 2.0 else r1;
    var step := p.speed * dt;
    var forward := Vec2(cos(r2), sin(r2));
    var p1 := if scheme.forward in down then Vec2(p.position.x + forward.x * step, p.position.y + forward.y * step) else p.position;
    var p2 := if scheme.backward in down then Vec2(p1.x - forward.x * step, p1.y - forward.y * step) else p1;
    p.(rotation := r2,
       position := Vec2(ClampReal(p2.x, Margin, world.x - Margin), ClampReal(p2.y, Margin, world.y - Margin)))
  }

  /** `std::min(a, b)`. */
  function MinOf(a: real, b: real): real { if b < a then b else a }
  function MaxOf(a: real, b: real): real { if a < b then b else a }

  /** Moving a fraction in [0,1] of the way to `target` stays between `current` and `target`. */
  lemma EaseStep(current: real, target: real, e: real)
    requires 0.0 <= e <= 1.0
    ensures MinOf(current, target) <= current + e * (target - current) <= MaxOf(current, target)
  {
    var d := target - current;
    if d >= 0.0 {
      assert e * d <= 1.0 * d;
    } else {
      assert e * (-d) <= 1.0 * (-d);
    }
  }

  /**
   * `ease_to_target`: `current` moves the fraction `min(dt * weight, 1)` of
   * the way to `target`. With `dt * weight >= 1` it lands on the target;
   * with `dt * weight` in [0,1] it stays between where it was and the
   * target, so it never overshoots.
   */
  function Eased(current: real, target: real, dt: real, weight: real): (r: real)
    ensures dt * weight >= 1.0 ==> r == target
    ensures 0.0 <= dt * weight <= 1.0 ==> MinOf(current, target) <= r <= MaxOf(current, target)
  {
    var easing := MinOf(dt * weight, 1.0);
    if easing == 1.0 then
      target
    else if 0.0 <= easing then
      EaseStep(current, target, easing);
      current + easing * (target - current)
    else
      current + easing * (target - current)
  }

  /**
   * `updateCameraState`: the camera eases toward its player's position
   * (weight 5), toward the player's heading in first person or 0 when
   * following (weight 6.5), and toward its target zoom (weight 4).
   */
  function Followed(c: Camera, p: Player, dt: real): Camera {
    var targetRotation := if c.mode == FirstPerson then p.rotation else 0.0;
    c.(position := Vec2(Eased(c.position.x, p.position.x, dt, 5.0), Eased(c.position.y, p.position.y, dt, 5.0)),
       rotation := Eased(c.rotation, targetRotation, dt, 6.5),
       zoom := Eased(c.zoom, c.targetZoom, dt, 4.0))
  }

  /** With a large enough step the camera reaches its player, its target heading and its target zoom at once. */
  lemma FollowedLands(c: Camera, p: Player, dt: real)
    requires dt * 4.0 >= 1.0
    ensures Followed(c, p, dt).position == p.position
    ensures Followed(c, p, dt).rotation == (if c.mode == FirstPerson then p.rotation else 0.0)
    ensures Followed(c, p, dt).zoom == c.targetZoom
    ensures Followed(c, p, dt).mode == c.mode && Followed(c, p, dt).targetZoom == c.targetZoom
  {
    assert dt * 5.0 >= 1.0 && dt * 6.5 >= 1.0;
  }

  // ---------------------------------------------------------------------
  // View-projection
  // ---------------------------------------------------------------------

  /**
   * `buildViewProjection`: the NDC matrix of the viewport times
   * centre-of-viewport translation, zoom, inverse camera rotation and the
   * translation taking the camera position to the origin.
   */
  function ViewProjection(c: Camera, size: IVec2): Mat3 {
    var toOrigin := Translation(Vec2(-c.position.x, -c.position.y));
    var rotate := Rotation(-c.rotation);
    var zoom := Scaling(Vec2(c.zoom, c.zoom));
    var toCenter := Translation(Vec2(size.x as real * 0.5, size.y as real * 0.5));
    Product(Ndc(size), Product(Product(Product(toCenter, zoom), rotate), toOrigin))
  }

  /** The calls that draw viewport `v` of camera `c`: set the viewport, begin its scene. */
  function ViewEvents(v: Viewport, c: Camera, cameraBuffer: Handle): seq<Event> {
    [SetViewport(Rect(v.origin, v.size))] + IR.SceneEvents(cameraBuffer, ViewProjection(c, v.size))
  }

  /** The calls for the first `n` viewports, in order. */
  function ViewsEvents(vs: seq<Viewport>, cs: seq<Camera>, n: nat, cameraBuffer: Handle): seq<Event>
    requires n <= |vs| && n <= |cs|
  {
    if n == 0 then [] else ViewsEvents(vs, cs, n - 1, cameraBuffer) + ViewEvents(vs[n - 1], cs[n - 1], cameraBuffer)
  }

  // ---------------------------------------------------------------------
  // Starting state
  // ---------------------------------------------------------------------

  /** The four players of `Load`. */
  const InitialPlayers: seq<Player> := [
    Player(Vec2(400.0, 400.0), 0.0, 240.0, RawRgba(0xFF7F50FF), "Navigator A"),
    Player(Vec2(1800.0, 300.0), Pi * 0.5, 240.0, RawRgba(0x70C1FFFF), "Navigator B"),
    Player(Vec2(600.0, 1400.0), 0.0, 240.0, RawRgba(0xFFCC00FF), "Navigator C"),
    Player(Vec2(1800.0, 1300.0), Pi, 240.0, RawRgba(0x9F7AFFFF), "Navigator D")
  ]

  /** Camera `i` as `Load` leaves it: on its player, zoom 1.2, labelled "Viewport i+1"; its mode is kept. */
  function LoadedCamera(c: Camera, p: Player, i: nat): Camera {
    c.(position := p.position, rotation := p.rotation, targetZoom := 1.2, zoom := 1.2, caption := "Viewport " + Decimal(i + 1))
  }

  class CameraDemo {
    const worldSize: Vec2
    var viewportCount: int
    var activeViewport: int
    var showGrid: bool
    var players: seq<Player>
    var cameras: seq<Camera>
    var viewports: seq<Viewport>
    var primitiveRenderer: PrimitiveRenderer

    /**
     * One camera per player, at most four of each (one per control scheme),
     * a viewport count in [1, 4] and an active viewport below four.
     */
    ghost predicate Valid()
      reads this
    {
      && worldSize == WorldSize
      && |players| == |cameras| <= |Schemes|
      && 1 <= viewportCount <= 4
      && 0 <= activeViewport < 4
    }

    /** The member defaults: two viewports, the first active, no players, cameras or viewports yet. */
    constructor ()
      ensures Valid()
      ensures worldSize == Vec2(2400.0, 1800.0)
      ensures viewportCount == 2 && activeViewport == 0 && activeViewport < viewportCount
      ensures showGrid && players == [] && cameras == [] && viewports == []
      ensures primitiveRenderer == FreshPrimitiveRenderer
    {
      worldSize := WorldSize;
      viewportCount := 2;
      activeViewport := 0;
      showGrid := true;
      players := [];
      cameras := [];
      viewports := [];
      primitiveRenderer := FreshPrimitiveRenderer;
    }

    /**
     * `buildViewportLayout(window)`: empties the viewport list and pushes the
     * tiles of the current count.
     */
    method BuildViewportLayout(window: IVec2)
      modifies this`viewports
      ensures viewports == Layout(viewportCount, window, WideWidth(window.x))
    {
      viewports := [];
      var big := WideWidth(window.x);
      var halfWidth := TruncDiv(window.x, 2);
      var halfHeight := TruncDiv(window.y, 2);
      if viewportCount == 1 {
        viewports := viewports + [Viewport(IVec2(0, 0), window)];
      } else if viewportCount == 2 {
        viewports := viewports + [Viewport(IVec2(0, 0), IVec2(halfWidth, window.y))];
        viewports := viewports + [Viewport(IVec2(halfWidth, 0), IVec2(window.x - halfWidth, window.y))];
      } else if viewportCount == 3 {
        viewports := viewports + [Viewport(IVec2(0, 0), IVec2(big, window.y))];
        viewports := viewports + [Viewport(IVec2(big, halfHeight), IVec2(window.x - big, window.y - halfHeight))];
        viewports := viewports + [Viewport(IVec2(big, 0), IVec2(window.x - big, halfHeight))];
      } else {
        viewports := viewports + [Viewport(IVec2(0, halfHeight), IVec2(halfWidth, window.y - halfHeight))];
        viewports := viewports + [Viewport(IVec2(halfWidth, halfHeight), IVec2(window.x - halfWidth, window.y - halfHeight))];
        viewports := viewports + [Viewport(IVec2(0, 0), IVec2(halfWidth, halfHeight))];
        viewports := viewports + [Viewport(IVec2(halfWidth, 0), IVec2(window.x - halfWidth, halfHeight))];
      }
    }

    /**
     * `Load`: the four players, a camera on each (existing cameras keep
     * their mode), and the viewport layout of the window. The world
     * geometry and the primitive renderer are not part of this model.
     */
    method Load(window: IVec2)
      requires Valid()
      modifies this`players, this`cameras, this`viewports
      ensures Valid()
      ensures players == InitialPlayers && |cameras| == 4
      ensures forall i :: 0 <= i < 4 ==>
                cameras[i] == LoadedCamera(if i < |old(cameras)| then old(cameras)[i] else DefaultCamera, players[i], i)
      ensures viewportCount == old(viewportCount) && activeViewport == old(activeViewport)
      ensures viewports == Layout(viewportCount, window, WideWidth(window.x))
    {
      players := InitialPlayers;
      cameras := cameras + seq(4 - |cameras|, _ => DefaultCamera);
      ghost var resized := cameras;
      var i := 0;
      while i < |players|
        invariant 0 <= i <= 4 && |cameras| == |resized| == 4 && players == InitialPlayers
        invariant viewportCount == old(viewportCount) && activeViewport == old(activeViewport)
        invariant forall k :: 0 <= k < |old(cameras)| ==> resized[k] == old(cameras)[k]
        invariant forall k :: |old(cameras)| <= k < 4 ==> resized[k] == DefaultCamera
        invariant forall k :: 0 <= k < i ==> cameras[k] == LoadedCamera(resized[k], players[k], k)
        invariant forall k :: i <= k < 4 ==> cameras[k] == resized[k]
      {
        cameras := cameras[i := LoadedCamera(cameras[i], players[i], i)];
        i := i + 1;
      }
      BuildViewportLayout(window);
    }

    /**
     * `updatePlayers(dt)`: each player steers with its own keys and is kept
     * inside the world margin, then its camera eases toward it.
     */
    method UpdatePlayers(down: set<Input.Key>, dt: real, sin: real -> real, cos: real -> real)
      requires Valid()
      modifies this`players, this`cameras
      ensures Valid()
      ensures |players| == |old(players)| && |cameras| == |old(cameras)|
      ensures forall k :: 0 <= k < |players| ==>
                players[k] == Steered(old(players)[k], Schemes[k], down, dt, sin, cos, worldSize)
                && cameras[k] == Followed(old(cameras)[k], players[k], dt)
    {
      var i := 0;
      while i < |players|
        invariant 0 <= i <= |players| == |old(players)| == |cameras|
        invariant forall k :: 0 <= k < i ==>
                    players[k] == Steered(old(players)[k], Schemes[k], down, dt, sin, cos, worldSize)
                    && cameras[k] == Followed(old(cameras)[k], players[k], dt)
        invariant forall k :: i <= k < |players| ==> players[k] == old(players)[k] && cameras[k] == old(cameras)[k]
      {
        players := players[i := Steered(players[i], Schemes[i], down, dt, sin, cos, worldSize)];
        cameras := cameras[i := Followed(cameras[i], players[i], dt)];
        i := i + 1;
      }
    }

    /**
     * The key handling at the head of `Update`: the number keys set the
     * viewport count, clamped into [1, 4]; the active viewport is reduced
     * modulo the count and Tab advances it; Space toggles the active
     * camera's mode and Q/E change its target zoom.
     */
    method HandleKeys(kb: Keyboard, dt: real)
      requires Valid() && |cameras| == 4
      modifies this`viewportCount, this`activeViewport, this`cameras
      ensures Valid() && |cameras| == 4
      ensures viewportCount == ViewCount(old(viewportCount), kb.justPressed)
      ensures activeViewport == ActiveAfter(old(activeViewport), viewportCount, Input.Tab in kb.justPressed)
      ensures cameras == old(cameras)[activeViewport := Controlled(old(cameras)[activeViewport], kb, dt)]
    {
      SelectViewport(kb.justPressed);
      ControlActiveCamera(kb, dt);
    }

    /** The number keys and Tab: the new viewport count and active viewport. */
    method SelectViewport(pressed: set<Input.Key>)
      requires Valid()
      modifies this`viewportCount, this`activeViewport
      ensures Valid() && activeViewport < viewportCount
      ensures viewportCount == ViewCount(old(viewportCount), pressed)
      ensures activeViewport == ActiveAfter(old(activeViewport), viewportCount, Input.Tab in pressed)
    {
      if Input.One in pressed { viewportCount := 1; }
      if Input.Two in pressed { viewportCount := 2; }
      if Input.Three in pressed { viewportCount := 3; }
      if Input.Four in pressed { viewportCount := 4; }
      viewportCount := ClampInt(viewportCount, 1, 4);
      activeViewport := activeViewport % viewportCount;
      if Input.Tab in pressed {
        activeViewport := (activeViewport + 1) % viewportCount;
      }
    }

    /** Space, Q and E act on the active viewport's camera only. */
    method ControlActiveCamera(kb: Keyboard, dt: real)
      requires Valid() && |cameras| == 4
      modifies this`cameras
      ensures Valid() && |cameras| == 4
      ensures cameras == old(cameras)[activeViewport := Controlled(old(cameras)[activeViewport], kb, dt)]
    {
      var active := cameras[activeViewport];
      if Input.Space in kb.justPressed {
        active := active.(mode := Toggled(active.mode));
      }
      if Input.Q in kb.down {
        active := active.(targetZoom := MaxReal(0.5, active.targetZoom - dt * ZoomRate));
      }
      if Input.E in kb.down {
        active := active.(targetZoom := MinReal(3.5, active.targetZoom + dt * ZoomRate));
      }
      cameras := cameras[activeViewport := active];
    }

    /**
     * `Update`: the keys are handled, then the players move, the cameras
     * follow, and the layout is rebuilt for the window.
     */
    method Update(kb: Keyboard, dt: real, window: IVec2, sin: real -> real, cos: real -> real)
      requires Valid() && |cameras| == 4
      modifies this`viewportCount, this`activeViewport, this`players, this`cameras, this`viewports
      ensures Valid() && |cameras| == 4
      ensures viewportCount == ViewCount(old(viewportCount), kb.justPressed)
      ensures activeViewport == ActiveAfter(old(activeViewport), viewportCount, Input.Tab in kb.justPressed)
      ensures 0 <= activeViewport < viewportCount
      ensures forall k :: 0 <= k < 4 ==>
                players[k] == Steered(old(players)[k], Schemes[k], kb.down, dt, sin, cos, worldSize)
                && cameras[k] == Followed(if k == activeViewport then Controlled(old(cameras)[k], kb, dt) else old(cameras)[k],
                                          players[k], dt)
      ensures viewports == Layout(viewportCount, window, WideWidth(window.x)) && |viewports| == viewportCount
    {
      HandleKeys(kb, dt);
      UpdatePlayers(kb.down, dt, sin, cos);
      BuildViewportLayout(window);
    }

    /**
     * The "Viewport Count" radio buttons: the count changes and the layout
     * is left as it was until the next `Update` rebuilds it.
     */
    method ChooseViewportCount(n: int)
      requires Valid() && 1 <= n <= 4
      modifies this`viewportCount
      ensures Valid() && viewportCount == n
    {
      viewportCount := n;
    }

    /**
     * `Draw`: clears, then for each of the first `viewportCount` viewports
     * sets it and begins a scene with its camera's view-projection, then
     * begins a window-sized scene for the separators. It indexes the
     * viewport list up to the count, so the layout must be current; the
     * world, the players and the separators are drawn by the primitive
     * renderer, which is not part of this model.
     */
    method Draw(gl: Device, renderer: IR.Renderer2D, window: IVec2)
      requires Valid() && gl.Valid() && |cameras| == 4
      requires viewportCount <= |viewports|
      modifies gl, renderer
      ensures gl.Valid() && gl.live == old(gl.live)
      ensures gl.log == old(gl.log) + [Clear(ColorBit)] + ViewsEvents(viewports, cameras, viewportCount, renderer.cameraUniformBuffer)
                        + [SetViewport(Rect(IVec2(0, 0), window))] + IR.SceneEvents(renderer.cameraUniformBuffer, Ndc(window))
      ensures renderer.State() == old(renderer.State()).(viewProjection := Ndc(window))
    {
      gl.Issue(Clear(ColorBit));
      var i := 0;
      while i < viewportCount
        invariant 0 <= i <= viewportCount
        invariant gl.Valid() && gl.live == old(gl.live)
        invariant renderer.cameraUniformBuffer == old(renderer.cameraUniformBuffer)
        invariant renderer.State() == old(renderer.State()).(viewProjection := renderer.viewProjection)
        invariant gl.log == old(gl.log) + [Clear(ColorBit)] + ViewsEvents(viewports, cameras, i, renderer.cameraUniformBuffer)
      {
        ghost var head, views := old(gl.log) + [Clear(ColorBit)], ViewsEvents(viewports, cameras, i, renderer.cameraUniformBuffer);
        DrawView(gl, renderer, viewports[i], cameras[i]);
        AppendAssoc(head, views, ViewEvents(viewports[i], cameras[i], renderer.cameraUniformBuffer));
        i := i + 1;
      }
      ghost var log0 := gl.log;
      gl.Emit(SetViewport(Rect(IVec2(0, 0), window)));
      renderer.BeginScene(gl, Ndc(window));
      renderer.EndScene(gl);
      AppendAssoc(log0, [SetViewport(Rect(IVec2(0, 0), window))], IR.SceneEvents(renderer.cameraUniformBuffer, Ndc(window)));
    }
  }

  /** One viewport of `Draw`: the viewport is set and a scene begun with its camera's view-projection. */
  method DrawView(gl: Device, renderer: IR.Renderer2D, v: Viewport, c: Camera)
    requires gl.Valid()
    modifies gl, renderer
    ensures gl.Valid() && gl.live == old(gl.live)
    ensures renderer.State() == old(renderer.State()).(viewProjection := ViewProjection(c, v.size))
    ensures gl.log == old(gl.log) + ViewEvents(v, c, renderer.cameraUniformBuffer)
  {
    ghost var log0 := gl.log;
    gl.Emit(SetViewport(Rect(v.origin, v.size)));
    renderer.BeginScene(gl, ViewProjection(c, v.size));
    renderer.EndScene(gl);
    AppendAssoc(log0, [SetViewport(Rect(v.origin, v.size))], IR.SceneEvents(renderer.cameraUniformBuffer, ViewProjection(c, v.size)));
  }

  /**
   * After `Update` the layout is current: `Draw` may index every viewport up
   * to the count, and the active viewport is one of them.
   */
  lemma UpdateMakesLayoutCurrent(count: int, pressed: set<Input.Key>, active: int, tab: bool, window: IVec2, big: int)
    requires 0 <= active
    ensures ViewCount(count, pressed) <= |Layout(ViewCount(count, pressed), window, big)|
    ensures 0 <= ActiveAfter(active, ViewCount(count, pressed), tab) < |Layout(ViewCount(count, pressed), window, big)|
  {
  }

  /**
   * The radio buttons can leave a stale layout: after a one-view layout is
   * built, choosing four views leaves one viewport, and `Draw` would index
   * three past the end unless `Update` rebuilds the layout first.
   */
  lemma StaleLayoutAfterChoice(window: IVec2, big: int)
    ensures |Layout(1, window, big)| == 1 < 4
  {
  }
}
