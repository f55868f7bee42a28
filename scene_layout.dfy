/**
 * The items `DemoDepthPost::buildScene` lays out for a window of a given
 * size: a sky, two rows of buildings, a ground strip, crates and a neon sign,
 * 140 stacked panels, two drifting fog layers and three glass shapes. Sizes
 * and positions are fractions of the window; `sin` is the standard sine,
 * left uninterpreted.
 */
module SceneLayout {
  import opened Vec2
  import opened GL
  import opened DepthScene

  const SkyTop := PackColor(0.07, 0.10, 0.18, 1.0)
  const SkyBottom := PackColor(0.10, 0.12, 0.20, 1.0)
  const HorizonGlow := PackColor(0.18, 0.22, 0.30, 1.0)
  const FarBuildings := PackColor(0.10, 0.12, 0.18, 1.0)
  const MidBuildings := PackColor(0.14, 0.16, 0.24, 1.0)
  const GroundColor := PackColor(0.05, 0.06, 0.09, 1.0)
  const CrateColor := PackColor(0.26, 0.22, 0.18, 1.0)
  const NeonColor := PackColor(0.12, 0.70, 0.90, 1.0)
  const FogColor := PackColor(0.50, 0.62, 0.72, 0.28)
  const FogColorClose := PackColor(0.45, 0.52, 0.65, 0.20)
  const GlassColor := PackColor(0.30, 0.85, 0.90, 0.18)

  const FarCount: nat := 9
  const MidCount: nat := 6
  const PanelCount: nat := 140

  /** `add_opaque` / `add_transparent`: the depth clamped into [0,1], the white texture. */
  function MakeItem(position: Vec2, size: Vec2, depth: real, color: Rgba, rotation: real, white: Handle): (item: RenderItem)
    ensures 0.0 <= item.depth <= 1.0 && item.texture == white
    ensures 0.0 <= depth <= 1.0 ==> item.depth == depth
    ensures item.position == position && item.size == size && item.tint == color && item.rotation == rotation
  {
    RenderItem(position, size, rotation, Clamp(depth, 0.0, 1.0), white, color)
  }

  /** The sky halves and the horizon glow. */
  function Backdrop(w: real, h: real, white: Handle): seq<RenderItem> {
    [ MakeItem(Vec2(w * 0.5, h * 0.75), Vec2(w, h * 0.5), 0.95, SkyTop, 0.0, white),
      MakeItem(Vec2(w * 0.5, h * 0.25), Vec2(w, h * 0.5), 0.90, SkyBottom, 0.0, white),
      MakeItem(Vec2(w * 0.5, h * 0.55), Vec2(w, h * 0.10), 0.88, HorizonGlow, 0.0, white) ]
  }

  /** Far building `i` of nine: width and height vary with `i`, centred in its ninth of the width. */
  function FarBuilding(i: nat, w: real, h: real, white: Handle): RenderItem {
    var bw := w * 0.08 + ((i % 3) as real) * w * 0.015;
    var bh := h * (0.20 + 0.18 * ((i % 4) as real) / 3.0);
    var x := (i as real + 0.5) * (w / FarCount as real);
    MakeItem(Vec2(x, bh * 0.5), Vec2(bw, bh), 0.82, FarBuildings, 0.0, white)
  }

  /** Mid building `i` of six. */
  function MidBuilding(i: nat, w: real, h: real, white: Handle): RenderItem {
    var bw := w * 0.10 + ((i % 2) as real) * w * 0.02;
    var bh := h * (0.28 + 0.20 * ((i % 3) as real) / 2.0);
    var x := (i as real + 0.8) * (w / MidCount as real);
    MakeItem(Vec2(x, bh * 0.5), Vec2(bw, bh), 0.58, MidBuildings, 0.0, white)
  }

  /** The ground strip, two tilted crates and the neon sign. */
  function Foreground(w: real, h: real, white: Handle): seq<RenderItem> {
    [ MakeItem(Vec2(w * 0.5, h * 0.10), Vec2(w, h * 0.20), 0.22, GroundColor, 0.0, white),
      MakeItem(Vec2(w * 0.72, h * 0.20), Vec2(w * 0.10, h * 0.10), 0.10, CrateColor, 0.08, white),
      MakeItem(Vec2(w * 0.82, h * 0.18), Vec2(w * 0.08, h * 0.08), 0.12, CrateColor, -0.05, white),
      MakeItem(Vec2(w * 0.67, h * 0.26), Vec2(w * 0.04, h * 0.14), 0.18, NeonColor, 0.0, white) ]
  }

  /** The depth of panel `i`: 0.14 for the first, rising evenly to 0.82 for the last. */
  function PanelDepth(i: nat): real {
    0.14 + 0.68 * ((i as real) / ((PanelCount - 1) as real))
  }

  /** Panel `i` of 140: a large slab whose depth rises with `i`, jittered by `(i % 5) - 2`. */
  function Panel(i: nat, w: real, h: real, white: Handle, sin: real -> real): RenderItem {
    var t := (i as real) / ((PanelCount - 1) as real);
    var shade := 0.09 + 0.07 * sin(t * 3.14159);
    var offset := ((i % 5) as real) - 2.0;
    MakeItem(Vec2(w * 0.22 + offset * 3.0, h * 0.48 + offset * 2.0), Vec2(w * 0.42, h * 0.78),
             PanelDepth(i), PackColor(shade, shade * 1.1, shade * 1.3, 1.0), 0.0, white)
  }

  function FarRow(w: real, h: real, white: Handle): seq<RenderItem> {
    seq(FarCount, i requires 0 <= i < FarCount => FarBuilding(i, w, h, white))
  }

  function MidRow(w: real, h: real, white: Handle): seq<RenderItem> {
    seq(MidCount, i requires 0 <= i < MidCount => MidBuilding(i, w, h, white))
  }

  function Panels(w: real, h: real, white: Handle, sin: real -> real): seq<RenderItem> {
    seq(PanelCount, i requires 0 <= i < PanelCount => Panel(i, w, h, white, sin))
  }

  /** The opaque list of a window `size`, in push order. */
  function OpaqueLayout(size: IVec2, white: Handle, sin: real -> real): seq<RenderItem> {
    var w := size.x as real;
    var h := size.y as real;
    Backdrop(w, h, white) + FarRow(w, h, white) + MidRow(w, h, white) + Foreground(w, h, white) + Panels(w, h, white, sin)
  }

  /** The two fog layers first, then the glass pane and the two neon beams. */
  function TransparentLayout(size: IVec2, white: Handle): seq<RenderItem> {
    var w := size.x as real;
    var h := size.y as real;
    [ MakeItem(Vec2(w * 0.5, h * 0.38), Vec2(w, h * 0.22), 0.62, FogColor, 0.0, white),
      MakeItem(Vec2(w * 0.5, h * 0.22), Vec2(w, h * 0.18), 0.42, FogColorClose, 0.0, white),
      MakeItem(Vec2(w * 0.78, h * 0.48), Vec2(w * 0.28, h * 0.70), 0.04, GlassColor, 0.0, white),
      MakeItem(Vec2(w * 0.60, h * 0.52), Vec2(w * 0.06, h * 0.70), 0.55, PackColor(0.20, 0.80, 0.90, 0.24), 0.05, white),
      MakeItem(Vec2(w * 0.90, h * 0.50), Vec2(w * 0.05, h * 0.65), 0.65, PackColor(0.15, 0.75, 0.85, 0.22), -0.04, white) ]
  }

  /** The fog layers' animation: each names the list position it was pushed at and rests where it was placed. */
  function AnimatedLayout(size: IVec2): seq<AnimatedLayer> {
    var w := size.x as real;
    var h := size.y as real;
    [ AnimatedLayer(0, Vec2(w * 0.5, h * 0.38), 0.4, w * 0.02),
      AnimatedLayer(1, Vec2(w * 0.5, h * 0.22), 0.6, w * 0.03) ]
  }

  /** Every item has a depth in [0,1] and the white texture. */
  predicate WellFormed(items: seq<RenderItem>, white: Handle) {
    forall k :: 0 <= k < |items| ==> 0.0 <= items[k].depth <= 1.0 && items[k].texture == white
  }

  /** 162 opaque items, every depth in [0,1], every texture the white one. */
  lemma OpaqueLayoutSpec(size: IVec2, white: Handle, sin: real -> real)
    ensures |OpaqueLayout(size, white, sin)| == 162
    ensures WellFormed(OpaqueLayout(size, white, sin), white)
  {
    var w := size.x as real;
    var h := size.y as real;
    var parts := [Backdrop(w, h, white), FarRow(w, h, white), MidRow(w, h, white), Foreground(w, h, white), Panels(w, h, white, sin)];
    forall j | 0 <= j < |parts| ensures WellFormed(parts[j], white) {
    }
    WellFormedAppend(Backdrop(w, h, white), FarRow(w, h, white), white);
    WellFormedAppend(Backdrop(w, h, white) + FarRow(w, h, white), MidRow(w, h, white), white);
    WellFormedAppend(Backdrop(w, h, white) + FarRow(w, h, white) + MidRow(w, h, white), Foreground(w, h, white), white);
    WellFormedAppend(Backdrop(w, h, white) + FarRow(w, h, white) + MidRow(w, h, white) + Foreground(w, h, white),
                     Panels(w, h, white, sin), white);
  }

  lemma WellFormedAppend(a: seq<RenderItem>, b: seq<RenderItem>, white: Handle)
    requires WellFormed(a, white) && WellFormed(b, white)
    ensures WellFormed(a + b, white)
  {
    forall k | 0 <= k < |a + b| ensures 0.0 <= (a + b)[k].depth <= 1.0 && (a + b)[k].texture == white {
      if k < |a| {
        assert (a + b)[k] == a[k];
      } else {
        assert (a + b)[k] == b[k - |a|];
      }
    }
  }

  /**
   * Five transparent items, well formed; two animated layers whose indices
   * name the two fog items and whose rest positions are where those items
   * were placed.
   */
  lemma TransparentLayoutSpec(size: IVec2, white: Handle)
    ensures |TransparentLayout(size, white)| == 5 && WellFormed(TransparentLayout(size, white), white)
    ensures |AnimatedLayout(size)| == 2
    ensures forall l :: 0 <= l < 2 ==> AnimatedLayout(size)[l].index == l
    ensures forall l :: 0 <= l < 2 ==>
              TransparentLayout(size, white)[AnimatedLayout(size)[l].index].position == AnimatedLayout(size)[l].basePosition
  {
  }

  /** The panels are stacked evenly from 0.14 to 0.82, deeper with every index, so the clamp never alters them. */
  lemma PanelDepths(i: nat, j: nat)
    requires i < j < PanelCount
    ensures 0.14 <= PanelDepth(i) < PanelDepth(j) <= 0.82
  {
    assert (i as real) / 139.0 < (j as real) / 139.0;
    assert (j as real) / 139.0 <= 1.0;
  }
}
