/**
 * `CS230::Font`: a bitmap font read from a one-row strip of glyphs separated
 * by changes of pixel colour, and a cache of rendered text textures keyed by
 * text and colour, aged by frame number.
 */
module Font {
  import opened Vec2
  import opened GL
  import opened Text
  import opened Textures
  import opened TextureManagement
  import opened ImmediateRenderer

  /** The colour the first pixel of a font image must have. */
  const White: nat := 0xFFFF_FFFF

  /** Glyphs in a font: the characters ' ' through 'z'. */
  const NumChars: nat := 91

  /** An integer rectangle given by two corners (`Math::irect`). */
  datatype IRect = IRect(point1: IVec2, point2: IVec2)

  /** Columns a glyph occupies. */
  function GlyphWidth(r: IRect): int {
    r.point2.x - r.point1.x + 1
  }

  /** Rows a glyph occupies. */
  function GlyphHeight(r: IRect): int {
    r.point2.y - r.point1.y + 1
  }

  function Max(a: int, b: int): int {
    if a < b then b else a
  }

  // ---------------------------------------------------------------------
  // The glyph scan
  // ---------------------------------------------------------------------

  /**
   * The width of the run that starts at pixel `x` in colour `color`, counted
   * from `w`: the least `r >= w` such that pixel `x + r` is not `color`, or
   * where the buffer ends.
   */
  function RunWidth(pixels: seq<nat>, x: nat, color: nat, w: nat): (r: nat)
    ensures r >= w
    ensures x + r < |pixels| ==> pixels[x + r] != color
    ensures SameColor(pixels, x + w, x + r, color)
    decreases |pixels| - (x + w)
  {
    if x + w >= |pixels| || pixels[x + w] != color then w
    else
      var r := RunWidth(pixels, x, color, w + 1);
      SameColorExtend(pixels, x + w, x + r, color);
      r
  }

  /** Pixels `from` up to `to` (exclusive) exist and all have colour `color`. */
  predicate SameColor(pixels: seq<nat>, from: int, to: int, color: nat) {
    && (from < to ==> 0 <= from && to <= |pixels|)
    && forall j :: from <= j < to ==> pixels[j] == color
  }

  /** A run of `color` extends one pixel to the left over a pixel of `color`. */
  lemma SameColorExtend(pixels: seq<nat>, from: nat, to: int, color: nat)
    requires from < |pixels| && pixels[from] == color && SameColor(pixels, from + 1, to, color)
    ensures SameColor(pixels, from, to, color)
  {
    forall j | from <= j < to
      ensures pixels[j] == color
    {
      if j > from {
        assert from + 1 <= j < to;
      }
    }
  }

  /** Where the scan stands before a glyph: its first column and the colour being compared against. */
  datatype Cursor = Cursor(x: nat, color: nat)

  /** The scan starts at column 1, comparing against the first pixel's colour. */
  function Start(pixels: seq<nat>): Cursor
    requires |pixels| >= 1
  {
    Cursor(1, pixels[0])
  }

  /** The width of the glyph starting at `c`. */
  function RunAt(pixels: seq<nat>, c: Cursor): nat {
    RunWidth(pixels, c.x, c.color, 1)
  }

  /** The cursor after the glyph at `c`: just past its run, comparing against the colour found there. */
  function Advance(pixels: seq<nat>, c: Cursor): Cursor {
    var end := c.x + RunAt(pixels, c);
    Cursor(end, if end < |pixels| then pixels[end] else 0)
  }

  /** The cursor `i` glyphs after `c`. */
  function Advanced(pixels: seq<nat>, c: Cursor, i: nat): Cursor
    decreases i, c
  {
    if i == 0 then c else Advanced(pixels, Advance(pixels, c), i - 1)
  }

  /** Each of the `n` runs from `c` on ends inside the pixel buffer. */
  predicate InBoundsFrom(pixels: seq<nat>, c: Cursor, n: nat)
    decreases n, c
  {
    n == 0 || (c.x + RunAt(pixels, c) < |pixels| && InBoundsFrom(pixels, Advance(pixels, c), n - 1))
  }

  /** Every run of a font's glyphs ends inside the pixel buffer. */
  predicate ScanInBounds(pixels: seq<nat>)
    requires |pixels| >= 1
  {
    InBoundsFrom(pixels, Start(pixels), NumChars)
  }

  /** The rectangle of the glyph starting at `c`: its columns, rows 1 through `height`. */
  function GlyphAt(pixels: seq<nat>, height: int, c: Cursor): IRect {
    IRect(IVec2(c.x, 1), IVec2(c.x + RunAt(pixels, c) - 1, height))
  }

  /** The rectangles of `n` glyphs, the first starting at `c`. */
  function GlyphsFrom(pixels: seq<nat>, height: int, c: Cursor, n: nat): (rs: seq<IRect>)
    ensures |rs| == n
    decreases n, c
  {
    if n == 0 then [] else [GlyphAt(pixels, height, c)] + GlyphsFrom(pixels, height, Advance(pixels, c), n - 1)
  }

  /** The rectangles of a font's glyphs, ' ' first. */
  function Glyphs(pixels: seq<nat>, height: int): (rs: seq<IRect>)
    requires |pixels| >= 1
    ensures |rs| == NumChars
  {
    GlyphsFrom(pixels, height, Start(pixels), NumChars)
  }

  /** Glyph `i` from `c` is the run at the cursor `i` glyphs on. */
  lemma {:induction false} GlyphsFromAt(pixels: seq<nat>, height: int, c: Cursor, n: nat, i: nat)
    requires i < n
    ensures GlyphsFrom(pixels, height, c, n)[i] == GlyphAt(pixels, height, Advanced(pixels, c, i))
    decreases i
  {
    if i > 0 {
      GlyphsFromAt(pixels, height, Advance(pixels, c), n - 1, i - 1);
    }
  }

  /**
   * The glyph rectangles from `c` are contiguous (the first starts at `c`'s
   * column and each starts one past the end of the previous one), at least
   * one column wide, and span rows 1 through `height`.
   */
  lemma {:induction false} GlyphsFromContiguous(pixels: seq<nat>, height: int, c: Cursor, n: nat)
    ensures n > 0 ==> GlyphsFrom(pixels, height, c, n)[0].point1.x == c.x
    ensures forall i :: 0 <= i < n - 1 ==>
              GlyphsFrom(pixels, height, c, n)[i + 1].point1.x == GlyphsFrom(pixels, height, c, n)[i].point2.x + 1
    ensures forall i :: 0 <= i < n ==>
              GlyphWidth(GlyphsFrom(pixels, height, c, n)[i]) >= 1
              && GlyphsFrom(pixels, height, c, n)[i].point1.y == 1 && GlyphsFrom(pixels, height, c, n)[i].point2.y == height
    decreases n
  {
    if n > 0 {
      var rs := GlyphsFrom(pixels, height, c, n);
      var rest := GlyphsFrom(pixels, height, Advance(pixels, c), n - 1);
      GlyphsFromContiguous(pixels, height, Advance(pixels, c), n - 1);
      assert rs == [GlyphAt(pixels, height, c)] + rest;
      forall i | 0 <= i < n - 1
        ensures rs[i + 1].point1.x == rs[i].point2.x + 1
      {
        if i > 0 {
          assert rs[i] == rest[i - 1];
        }
      }
    }
  }

  /**
   * A font's glyph rectangles are contiguous: the first starts at column 1,
   * each starts one past the end of the previous one, each is at least one
   * column wide, and all span rows 1 through the image height.
   */
  lemma GlyphsContiguous(pixels: seq<nat>, height: int)
    requires |pixels| >= 1
    ensures Glyphs(pixels, height)[0].point1.x == 1
    ensures forall i :: 0 <= i < NumChars - 1 ==> Glyphs(pixels, height)[i + 1].point1.x == Glyphs(pixels, height)[i].point2.x + 1
    ensures forall i :: 0 <= i < NumChars ==>
              GlyphWidth(Glyphs(pixels, height)[i]) >= 1
              && Glyphs(pixels, height)[i].point1.y == 1 && Glyphs(pixels, height)[i].point2.y == height
  {
    GlyphsFromContiguous(pixels, height, Start(pixels), NumChars);
  }

  /**
   * `r` covers a run of `color`: every column after its first has that
   * colour, and the column just past its end exists and does not.
   */
  predicate EndsRun(pixels: seq<nat>, r: IRect, color: nat) {
    && 0 <= r.point1.x <= r.point2.x && r.point2.x + 1 < |pixels|
    && SameColor(pixels, r.point1.x + 1, r.point2.x + 1, color)
    && pixels[r.point2.x + 1] != color
  }

  /**
   * Glyph `i` from `c` is a run ended by a different colour: every column
   * after its first has the run colour and the column just past its end,
   * which exists, does not. The run colour is `c`'s for the first glyph and
   * the glyph's own first column's for every later one.
   */
  lemma {:induction false} RunsFrom(pixels: seq<nat>, height: int, c: Cursor, n: nat, i: nat)
    requires i < n && InBoundsFrom(pixels, c, n)
    ensures i == 0 ==> EndsRun(pixels, GlyphsFrom(pixels, height, c, n)[i], c.color)
    ensures i > 0 ==> var r := GlyphsFrom(pixels, height, c, n)[i];
              0 <= r.point1.x < |pixels| && EndsRun(pixels, r, pixels[r.point1.x])
    decreases i
  {
    var rest := GlyphsFrom(pixels, height, Advance(pixels, c), n - 1);
    assert GlyphsFrom(pixels, height, c, n) == [GlyphAt(pixels, height, c)] + rest;
    if i > 0 {
      RunsFrom(pixels, height, Advance(pixels, c), n - 1, i - 1);
      assert GlyphsFrom(pixels, height, c, n)[i] == rest[i - 1];
      if i == 1 {
        assert rest[0] == GlyphAt(pixels, height, Advance(pixels, c));
      }
    }
  }

  /**
   * Each glyph of a font is a run of one colour ended by a different colour.
   * After the first glyph the run colour is the glyph's own first column;
   * for the first glyph it is the first pixel's (white), and column 1 itself
   * is never compared.
   */
  lemma GlyphIsRun(pixels: seq<nat>, height: int, i: nat)
    requires |pixels| >= 1 && ScanInBounds(pixels) && i < NumChars
    ensures i == 0 ==> EndsRun(pixels, Glyphs(pixels, height)[i], pixels[0])
    ensures i > 0 ==> var r := Glyphs(pixels, height)[i];
              0 <= r.point1.x < |pixels| && EndsRun(pixels, r, pixels[r.point1.x])
  {
    RunsFrom(pixels, height, Start(pixels), NumChars, i);
  }

  /**
   * One glyph of the constructor's scan: the width grows one column at a time
   * until the pixel just past it is not `color`; that pixel's colour is
   * returned too. There is no bound check, so the run must end inside the
   * buffer.
   */
  method ScanRun(pixels: seq<nat>, x: nat, color: nat) returns (width: nat, nextColor: nat)
    requires x + RunWidth(pixels, x, color, 1) < |pixels|
    ensures width == RunWidth(pixels, x, color, 1) && nextColor == pixels[x + width]
  {
    ghost var run := RunWidth(pixels, x, color, 1);
    width := 1;
    nextColor := pixels[x + width];
    while color == nextColor
      invariant 1 <= width <= run
      invariant x + width < |pixels| && nextColor == pixels[x + width]
      decreases run - width
    {
      width := width + 1;
      nextColor := pixels[x + width];
    }
  }

  /**
   * One turn of the scan: the glyph's run is measured from column `x`
   * against `color`, and its rectangle stored at `index`; the column just
   * past it and its colour are where the next glyph starts.
   */
  method ScanGlyph(pixels: seq<nat>, height: int, rects: array<IRect>, index: nat, x: nat, color: nat)
    returns (width: nat, nextColor: nat)
    requires index < rects.Length && x + RunAt(pixels, Cursor(x, color)) < |pixels|
    modifies rects
    ensures rects[..] == old(rects[..])[index := GlyphAt(pixels, height, Cursor(x, color))]
    ensures Cursor(x + width, nextColor) == Advance(pixels, Cursor(x, color))
  {
    width, nextColor := ScanRun(pixels, x, color);
    rects[index] := IRect(IVec2(x, 1), IVec2(x + width - 1, height));
  }

  /** One step of the scan: the glyph at `c` moves from the glyphs still to find to those found. */
  lemma ScanStep(pixels: seq<nat>, height: int, whole: seq<IRect>, done: seq<IRect>, c: Cursor, n: nat)
    requires n > 0 && InBoundsFrom(pixels, c, n) && whole == done + GlyphsFrom(pixels, height, c, n)
    ensures c.x + RunAt(pixels, c) < |pixels| && InBoundsFrom(pixels, Advance(pixels, c), n - 1)
    ensures whole == (done + [GlyphAt(pixels, height, c)]) + GlyphsFrom(pixels, height, Advance(pixels, c), n - 1)
  {
    AppendAssoc(done, [GlyphAt(pixels, height, c)], GlyphsFrom(pixels, height, Advance(pixels, c), n - 1));
  }

  /**
   * The constructor's scan: starting at column 1 with the first pixel's
   * colour, each glyph is the run up to the next change of colour, which
   * becomes the colour to compare against.
   */
  method ScanGlyphs(pixels: seq<nat>, height: int) returns (rects: array<IRect>)
    requires |pixels| >= 1 && ScanInBounds(pixels)
    ensures fresh(rects) && rects[..] == Glyphs(pixels, height)
  {
    rects := new IRect[NumChars](_ => IRect(IVec2(0, 0), IVec2(0, 0)));
    ghost var whole := GlyphsFrom(pixels, height, Start(pixels), NumChars);
    var checkColor := pixels[0];
    var x := 1;
    for index := 0 to NumChars
      invariant InBoundsFrom(pixels, Cursor(x, checkColor), NumChars - index)
      invariant whole == rects[..index] + GlyphsFrom(pixels, height, Cursor(x, checkColor), NumChars - index)
    {
      ghost var done := rects[..index];
      ghost var c := Cursor(x, checkColor);
      ScanStep(pixels, height, whole, done, c, NumChars - index);
      ghost var next := Advance(pixels, c);
      ghost var rest := GlyphsFrom(pixels, height, next, NumChars - (index + 1));
      assert InBoundsFrom(pixels, next, NumChars - (index + 1));
      assert whole == (done + [GlyphAt(pixels, height, c)]) + rest;
      var width;
      width, checkColor := ScanGlyph(pixels, height, rects, index, x, checkColor);
      assert rects[..index + 1] == done + [GlyphAt(pixels, height, c)];
      x := x + width;
      assert Cursor(x, checkColor) == next;
    }
    assert rects[..] == rects[..NumChars];
  }

  // ---------------------------------------------------------------------
  // Measuring and laying out text
  // ---------------------------------------------------------------------

  /** Characters the font has a glyph for; the others are skipped. */
  predicate Drawable(c: char) {
    ' ' <= c <= 'z'
  }

  /** The glyph of a drawable character. */
  function GlyphIndex(c: char): (i: nat)
    requires Drawable(c)
    ensures i < NumChars
  {
    c as int - ' ' as int
  }

  /** The glyphs drawn for `text`, in order: one per drawable character. */
  function Drawn(text: string): (ids: seq<nat>)
    ensures |ids| <= |text|
    ensures forall k :: 0 <= k < |ids| ==> ids[k] < NumChars
  {
    if text == [] then []
    else Drawn(text[..|text| - 1]) + (if Drawable(text[|text| - 1]) then [GlyphIndex(text[|text| - 1])] else [])
  }

  /** Reading one more character adds its glyph, when it has one. */
  lemma DrawnStep(text: string, i: nat)
    requires i < |text|
    ensures Drawn(text[..i + 1]) == Drawn(text[..i]) + (if Drawable(text[i]) then [GlyphIndex(text[i])] else [])
  {
    assert text[..i + 1][..i] == text[..i];
  }

  /** Every glyph index in `ids` names one of `rects`. */
  predicate Indexes(rects: seq<IRect>, ids: seq<nat>) {
    forall k :: 0 <= k < |ids| ==> ids[k] < |rects|
  }

  /** The total width of the glyphs `ids`. */
  function WidthSum(rects: seq<IRect>, ids: seq<nat>): int
    requires Indexes(rects, ids)
  {
    if ids == [] then 0 else WidthSum(rects, ids[..|ids| - 1]) + GlyphWidth(rects[ids[|ids| - 1]])
  }

  /** The greatest height among the glyphs `ids`, or 0 when there are none. */
  function HeightMax(rects: seq<IRect>, ids: seq<nat>): (h: int)
    requires Indexes(rects, ids)
    ensures h >= 0
  {
    if ids == [] then 0 else Max(HeightMax(rects, ids[..|ids| - 1]), GlyphHeight(rects[ids[|ids| - 1]]))
  }

  /** The width of the texture `text` is rendered into. */
  function TextWidth(rects: seq<IRect>, text: string): int
    requires |rects| == NumChars
  {
    WidthSum(rects, Drawn(text))
  }

  /** The height of the texture `text` is rendered into. */
  function TextHeight(rects: seq<IRect>, text: string): int
    requires |rects| == NumChars
  {
    HeightMax(rects, Drawn(text))
  }

  /** Measuring one more character adds its glyph's width and raises the height to its glyph's, when it has one. */
  lemma MeasureStep(rects: seq<IRect>, text: string, i: nat)
    requires |rects| == NumChars && i < |text|
    ensures TextWidth(rects, text[..i + 1])
            == TextWidth(rects, text[..i]) + if Drawable(text[i]) then GlyphWidth(rects[GlyphIndex(text[i])]) else 0
    ensures TextHeight(rects, text[..i + 1])
            == if Drawable(text[i]) then Max(TextHeight(rects, text[..i]), GlyphHeight(rects[GlyphIndex(text[i])]))
               else TextHeight(rects, text[..i])
  {
    DrawnStep(text, i);
    var ids := Drawn(text[..i]);
    if Drawable(text[i]) {
      var g := GlyphIndex(text[i]);
      assert (ids + [g])[..|ids|] == ids;
      assert WidthSum(rects, ids + [g]) == WidthSum(rects, ids) + GlyphWidth(rects[g]);
      assert HeightMax(rects, ids + [g]) == Max(HeightMax(rects, ids), GlyphHeight(rects[g]));
    } else {
      assert Drawn(text[..i + 1]) == ids + [] == ids;
    }
  }

  /** The height is the greatest glyph height: at least each one, and one of them (or 0 for none). */
  lemma {:induction false} HeightIsMax(rects: seq<IRect>, ids: seq<nat>)
    requires Indexes(rects, ids)
    ensures forall k :: 0 <= k < |ids| ==> HeightMax(rects, ids) >= GlyphHeight(rects[ids[k]])
    ensures HeightMax(rects, ids) == 0 || exists k :: 0 <= k < |ids| && HeightMax(rects, ids) == GlyphHeight(rects[ids[k]])
    decreases |ids|
  {
    if ids != [] {
      var init := ids[..|ids| - 1];
      HeightIsMax(rects, init);
      forall k | 0 <= k < |ids|
        ensures HeightMax(rects, ids) >= GlyphHeight(rects[ids[k]])
      {
        if k < |init| {
          assert ids[k] == init[k];
        }
      }
      if HeightMax(rects, ids) != 0 && HeightMax(rects, ids) != GlyphHeight(rects[ids[|ids| - 1]]) {
        var k :| 0 <= k < |init| && HeightMax(rects, init) == GlyphHeight(rects[init[k]]);
        assert ids[k] == init[k];
      }
    }
  }

  /** The glyphs of a concatenation are those of each part, in order. */
  lemma {:induction false} DrawnAppend(s: string, t: string)
    ensures Drawn(s + t) == Drawn(s) + Drawn(t)
    decreases |t|
  {
    if t == [] {
      assert s + t == s;
    } else {
      var init := t[..|t| - 1];
      DrawnAppend(s, init);
      assert (s + t)[..|s + t| - 1] == s + init;
    }
  }

  /** A text draws nothing exactly when none of its characters is drawable. */
  lemma {:induction false} DrawnEmpty(t: string)
    ensures Drawn(t) == [] <==> forall k :: 0 <= k < |t| ==> !Drawable(t[k])
    decreases |t|
  {
    if t != [] {
      var init := t[..|t| - 1];
      DrawnEmpty(init);
      if Drawn(t) == [] {
        forall k | 0 <= k < |t|
          ensures !Drawable(t[k])
        {
          if k < |init| {
            assert t[k] == init[k];
          }
        }
      }
    }
  }

  /** Widths add up over a concatenation of glyph lists. */
  lemma {:induction false} WidthAppend(rects: seq<IRect>, a: seq<nat>, b: seq<nat>)
    requires Indexes(rects, a) && Indexes(rects, b)
    ensures Indexes(rects, a + b)
    ensures WidthSum(rects, a + b) == WidthSum(rects, a) + WidthSum(rects, b)
    decreases |b|
  {
    if b == [] {
      assert a + b == a;
    } else {
      var init := b[..|b| - 1];
      WidthAppend(rects, a, init);
      assert (a + b)[..|a + b| - 1] == a + init;
    }
  }

  /** Heights combine by maximum over a concatenation of glyph lists. */
  lemma {:induction false} HeightAppend(rects: seq<IRect>, a: seq<nat>, b: seq<nat>)
    requires Indexes(rects, a) && Indexes(rects, b)
    ensures Indexes(rects, a + b)
    ensures HeightMax(rects, a + b) == Max(HeightMax(rects, a), HeightMax(rects, b))
    decreases |b|
  {
    if b == [] {
      assert a + b == a;
    } else {
      var init := b[..|b| - 1];
      HeightAppend(rects, a, init);
      assert (a + b)[..|a + b| - 1] == a + init;
    }
  }

  /**
   * Measuring a concatenation: the widths add and the heights combine by
   * maximum; characters without a glyph change neither.
   */
  lemma MeasureAppend(rects: seq<IRect>, s: string, t: string)
    requires |rects| == NumChars
    ensures TextWidth(rects, s + t) == TextWidth(rects, s) + TextWidth(rects, t)
    ensures TextHeight(rects, s + t) == Max(TextHeight(rects, s), TextHeight(rects, t))
    ensures (forall k :: 0 <= k < |t| ==> !Drawable(t[k])) ==>
              TextWidth(rects, s + t) == TextWidth(rects, s) && TextHeight(rects, s + t) == TextHeight(rects, s)
  {
    DrawnAppend(s, t);
    WidthAppend(rects, Drawn(s), Drawn(t));
    HeightAppend(rects, Drawn(s), Drawn(t));
    DrawnEmpty(t);
  }

  /**
   * With the glyphs of a scanned strip, a text with something to draw is as
   * tall as the image and at least one column per glyph wide; a text with
   * nothing to draw measures 0x0.
   */
  lemma {:induction false} ScannedMeasure(pixels: seq<nat>, height: int, ids: seq<nat>)
    requires |pixels| >= 1 && height >= 1
    requires forall k :: 0 <= k < |ids| ==> ids[k] < NumChars
    ensures Indexes(Glyphs(pixels, height), ids)
    ensures HeightMax(Glyphs(pixels, height), ids) == if ids == [] then 0 else height
    ensures WidthSum(Glyphs(pixels, height), ids) >= |ids|
    ensures ids == [] ==> WidthSum(Glyphs(pixels, height), ids) == 0
    decreases |ids|
  {
    var rects := Glyphs(pixels, height);
    if ids != [] {
      GlyphsContiguous(pixels, height);
      ScannedMeasure(pixels, height, ids[..|ids| - 1]);
      assert GlyphHeight(rects[ids[|ids| - 1]]) == height;
    }
  }

  /** One glyph placed by the pen loop: the pen position and the glyph's rectangle in the font texture. */
  datatype Placement = Placement(pen: Vec2, glyph: IRect)

  /** Glyph `k` of `ids` is drawn with the pen at the total width of the glyphs before it. */
  function Placements(rects: seq<IRect>, ids: seq<nat>): (ps: seq<Placement>)
    requires Indexes(rects, ids)
    ensures |ps| == |ids|
  {
    seq(|ids|, k requires 0 <= k < |ids| => Placement(Vec2(WidthSum(rects, ids[..k]) as real, 0.0), rects[ids[k]]))
  }

  /**
   * The pen starts at the origin, moves right by each glyph's width, and the
   * last glyph ends exactly at the measured text width.
   */
  lemma PenAdvances(rects: seq<IRect>, ids: seq<nat>)
    requires Indexes(rects, ids)
    ensures |ids| > 0 ==> Placements(rects, ids)[0].pen == Vec2(0.0, 0.0)
    ensures forall k :: 0 <= k < |ids| - 1 ==>
              Placements(rects, ids)[k + 1].pen
              == Vec2(Placements(rects, ids)[k].pen.x + GlyphWidth(rects[ids[k]]) as real, 0.0)
    ensures |ids| > 0 ==>
              Placements(rects, ids)[|ids| - 1].pen.x + GlyphWidth(rects[ids[|ids| - 1]]) as real
              == WidthSum(rects, ids) as real
  {
    forall k | 0 <= k < |ids|
      ensures WidthSum(rects, ids[..k + 1]) == WidthSum(rects, ids[..k]) + GlyphWidth(rects[ids[k]])
    {
      assert ids[..k + 1][..k] == ids[..k];
    }
    if |ids| > 0 {
      assert ids[..|ids|] == ids;
    }
  }

  /** Placing one more glyph adds one placement at the current pen position. */
  lemma PlacementsSnoc(rects: seq<IRect>, ids: seq<nat>, id: nat)
    requires Indexes(rects, ids) && id < |rects|
    ensures Indexes(rects, ids + [id])
    ensures Placements(rects, ids + [id])
            == Placements(rects, ids) + [Placement(Vec2(WidthSum(rects, ids) as real, 0.0), rects[id])]
  {
    var longer := ids + [id];
    assert longer[..|ids|] == ids;
    forall k | 0 <= k < |ids|
      ensures longer[..k] == ids[..k]
    {
    }
  }

  /** Drawing one more glyph appends its draw call at the current pen position. */
  lemma DrawStep(rects: seq<IRect>, ids: seq<nat>, id: nat, texture: Handle, color: nat)
    requires Indexes(rects, ids) && id < |rects|
    ensures Indexes(rects, ids + [id])
    ensures GlyphEvents(texture, Placements(rects, ids + [id]), color)
            == GlyphEvents(texture, Placements(rects, ids), color)
               + [DrawTextureRegion(texture, Vec2(WidthSum(rects, ids) as real, 0.0), rects[id].point1, rects[id].point2, RawRgba(color))]
  {
    PlacementsSnoc(rects, ids, id);
  }

  /** The calls drawing the placed glyphs of `texture` tinted `color`. */
  function GlyphEvents(texture: Handle, ps: seq<Placement>, color: nat): (es: seq<Event>)
    ensures |es| == |ps|
  {
    seq(|ps|, k requires 0 <= k < |ps| => DrawTextureRegion(texture, ps[k].pen, ps[k].glyph.point1, ps[k].glyph.point2, RawRgba(color)))
  }

  // ---------------------------------------------------------------------
  // The text cache
  // ---------------------------------------------------------------------

  /** The cache key of `text` in `color`: the text, "_0x", and the colour in lower-case hexadecimal. */
  function CacheKey(text: string, color: nat): string {
    text + "_0x" + Hex(color)
  }

  /** No hexadecimal digit is an underscore. */
  lemma HexHasNoUnderscore(n: nat)
    ensures forall k :: 0 <= k < |Hex(n)| ==> Hex(n)[k] != '_'
  {
    DigitsAreDigits(n, 16);
    forall k | 0 <= k < |Hex(n)|
      ensures Hex(n)[k] != '_'
    {
      assert 0 <= DigitValue(Hex(n)[k], 16);
    }
  }

  /** The underscore before "0x" is the last one in a cache key. */
  lemma KeyLastUnderscore(text: string, color: nat)
    ensures CacheKey(text, color)[|text|] == '_'
    ensures forall k :: |text| < k < |CacheKey(text, color)| ==> CacheKey(text, color)[k] != '_'
  {
    HexHasNoUnderscore(color);
    var key := CacheKey(text, color);
    forall k | |text| < k < |key|
      ensures key[k] != '_'
    {
      if k >= |text| + 3 {
        assert key[k] == Hex(color)[k - |text| - 3];
      }
    }
  }

  /**
   * Different texts or colours never share a cache entry: the hexadecimal
   * part has no underscore, so the last underscore of a key separates it.
   */
  lemma CacheKeyInjective(t1: string, c1: nat, t2: string, c2: nat)
    requires CacheKey(t1, c1) == CacheKey(t2, c2)
    ensures t1 == t2 && c1 == c2
  {
    KeyLastUnderscore(t1, c1);
    KeyLastUnderscore(t2, c2);
    var key := CacheKey(t1, c1);
    assert |t1| == |t2|;
    assert t1 == key[..|t1|];
    assert t2 == CacheKey(t2, c2)[..|t2|];
    assert Hex(c1) == key[|t1| + 3..];
    assert Hex(c2) == CacheKey(t2, c2)[|t2| + 3..];
    HexInjective(c1, c2);
  }

  /** A rendered text texture and the frame it was last asked for. */
  datatype CacheEntry = CacheEntry(texture: Texture, usedTime: int)

  /**
   * An entry is evicted when it was last used more than 60 frames ago and
   * the cache holds its texture's only reference; `heldElsewhere` names the
   * textures referenced from outside the cache.
   */
  predicate Stale(e: CacheEntry, frame: int, heldElsewhere: set<Texture>) {
    frame - e.usedTime > 60 && e.texture !in heldElsewhere
  }

  /** The entries of `cache` that are not stale. */
  function Survivors(cache: map<string, CacheEntry>, frame: int, heldElsewhere: set<Texture>): map<string, CacheEntry> {
    map k | k in cache && !Stale(cache[k], frame, heldElsewhere) :: cache[k]
  }

  /** An entry used in the current frame survives eviction, unchanged. */
  lemma FreshEntrySurvives(cache: map<string, CacheEntry>, key: string, e: CacheEntry, frame: int, heldElsewhere: set<Texture>)
    requires e.usedTime == frame
    ensures key in Survivors(cache[key := e], frame, heldElsewhere)
    ensures Survivors(cache[key := e], frame, heldElsewhere)[key] == e
  {
  }

  /**
   * Eviction removes exactly the stale entries and keeps the others as they
   * were, so evicting twice at the same frame changes nothing more.
   */
  lemma EvictionExact(cache: map<string, CacheEntry>, frame: int, heldElsewhere: set<Texture>)
    ensures forall k :: k in Survivors(cache, frame, heldElsewhere) <==> k in cache && !Stale(cache[k], frame, heldElsewhere)
    ensures forall k :: k in Survivors(cache, frame, heldElsewhere) ==> Survivors(cache, frame, heldElsewhere)[k] == cache[k]
    ensures Survivors(Survivors(cache, frame, heldElsewhere), frame, heldElsewhere) == Survivors(cache, frame, heldElsewhere)
  {
  }

  /** The keys of the stale entries of `cache`. */
  function StaleKeys(cache: map<string, CacheEntry>, frame: int, heldElsewhere: set<Texture>): set<string> {
    set k | k in cache && Stale(cache[k], frame, heldElsewhere)
  }

  /** The textures `cache` holds. */
  function CachedTextures(cache: map<string, CacheEntry>): set<Texture> {
    set k | k in cache :: cache[k].texture
  }

  /** The GL name of each cached texture, by key. */
  ghost function TextureNames(cache: map<string, CacheEntry>): map<string, Handle>
    reads CachedTextures(cache)
  {
    map k | k in cache :: cache[k].texture.handle
  }

  /** The names of `names` under `keys`. */
  function NamesOf(names: map<string, Handle>, keys: set<string>): set<Handle> {
    set k | k in keys && k in names :: names[k]
  }

  /**
   * The names eviction deletes: erasing a stale entry drops the last
   * reference to its texture, whose destructor deletes the name.
   */
  ghost function EvictedHandles(cache: map<string, CacheEntry>, frame: int, heldElsewhere: set<Texture>): set<Handle>
    reads CachedTextures(cache)
  {
    NamesOf(TextureNames(cache), StaleKeys(cache, frame, heldElsewhere))
  }

  /**
   * `events` are texture deletions of names in `handles` only, and every
   * non-zero name of `handles` is deleted.
   */
  ghost predicate TextureDeletions(events: seq<Event>, handles: set<Handle>) {
    && (forall i :: 0 <= i < |events| ==> events[i].Deleted? && events[i].kind == TextureObject && events[i].handle in handles)
    && (forall h :: h in handles && h != 0 ==> Deleted(TextureObject, h) in events)
  }

  /** The entries of `cache` left once the keys outside `pending` have been visited. */
  function Remaining(cache: map<string, CacheEntry>, pending: set<string>, frame: int, heldElsewhere: set<Texture>): map<string, CacheEntry> {
    map k | k in cache && (k in pending || !Stale(cache[k], frame, heldElsewhere)) :: cache[k]
  }

  /** Visiting one more key erases it exactly when its entry is stale. */
  lemma RemainingStep(cache: map<string, CacheEntry>, pending: set<string>, k: string, frame: int, heldElsewhere: set<Texture>)
    requires k in pending && k in cache
    ensures Remaining(cache, pending - {k}, frame, heldElsewhere)
            == if Stale(cache[k], frame, heldElsewhere) then Remaining(cache, pending, frame, heldElsewhere) - {k}
               else Remaining(cache, pending, frame, heldElsewhere)
  {
  }

  /** One more key adds its name. */
  lemma NamesOfAdd(names: map<string, Handle>, keys: set<string>, k: string)
    requires k in names
    ensures NamesOf(names, keys + {k}) == NamesOf(names, keys) + {names[k]}
  {
  }

  /**
   * Since the log was `log0` and the live set `live0`, exactly the names in
   * `handles` were deleted, as textures.
   */
  ghost predicate DeletedSince(gl: Device, log0: seq<Event>, live0: set<Handle>, handles: set<Handle>)
    reads gl
  {
    log0 <= gl.log && gl.live == live0 - handles && TextureDeletions(gl.log[|log0|..], handles)
  }

  /** Destroying one more cached texture adds its name to those deleted. */
  method DestroyCached(gl: Device, texture: Texture, ghost log0: seq<Event>, ghost live0: set<Handle>, ghost handles: set<Handle>)
    requires gl.Valid() && DeletedSince(gl, log0, live0, handles)
    modifies gl
    ensures gl.Valid() && gl.SettingsUnchanged()
    ensures DeletedSince(gl, log0, live0, handles + {texture.handle})
  {
    ghost var log1 := gl.log;
    texture.Destroy(gl);
    assert gl.log[|log0|..] == log1[|log0|..] + Drop(TextureObject, texture.handle);
  }

  /** The result of opening a font file: the font, or the error the constructor throws. */
  datatype Opened = Loaded(font: Font) | LoadFailed(message: string)

  /**
   * `Font(file)`: fails unless the first pixel is white; otherwise scans the
   * strip for the glyph rectangles and loads the image as a texture through
   * the texture manager. The file is read outside this model: its pixels, in
   * order, and its size are parameters.
   */
  method Open(gl: Device, manager: TextureManager, path: string, pixels: seq<nat>, imageSize: IVec2)
    returns (r: Opened)
    requires |pixels| >= 1 && gl.Valid() && manager.Valid()
    requires pixels[0] == White ==> ScanInBounds(pixels)
    modifies gl, manager
    ensures r.LoadFailed? <==> pixels[0] != White
    ensures r.LoadFailed? ==> r.message == "failed to load font : " + path
                              && gl.log == old(gl.log) && gl.live == old(gl.live)
                              && manager.cache == old(manager.cache) && manager.loaded == old(manager.loaded)
    ensures r.Loaded? ==> fresh(r.font) && r.font.Valid() && r.font.cache == map[]
                          && r.font.glyphs[..] == Glyphs(pixels, imageSize.y)
                          && manager.cache == old(manager.cache)[path := r.font.fontTexture]
    ensures r.Loaded? && path in old(manager.cache) ==>
              r.font.fontTexture == old(manager.cache)[path] && manager.loaded == old(manager.loaded)
              && gl.log == old(gl.log) && gl.live == old(gl.live)
    ensures r.Loaded? && path !in old(manager.cache) ==>
              r.font.fontTexture.size == imageSize && manager.loaded == old(manager.loaded) + [r.font.fontTexture]
              && r.font.fontTexture.handle != 0 && r.font.fontTexture.handle !in old(gl.live)
              && gl.log == old(gl.log) + [Created(TextureObject, r.font.fontTexture.handle)]
              && gl.live == old(gl.live) + {r.font.fontTexture.handle}
    ensures gl.Valid() && gl.SettingsUnchanged() && manager.Valid()
  {
    if pixels[0] != White {
      r := LoadFailed("failed to load font : " + path);
    } else {
      var rects := ScanGlyphs(pixels, imageSize.y);
      var texture := manager.Load(gl, path, imageSize);
      var font := new Font.Of(rects, texture);
      r := Loaded(font);
    }
  }

  class Font {
    /** `char_rects`: the rectangle of each glyph, ' ' first. */
    const glyphs: array<IRect>
    /** The whole font image as a texture. */
    const fontTexture: Texture
    /** `font_cache`: rendered text textures by cache key. */
    var cache: map<string, CacheEntry>

    ghost predicate Valid()
      reads this
    {
      glyphs.Length == NumChars
    }

    /** A font with the scanned glyph rectangles and the loaded texture, and an empty cache. */
    constructor Of(rects: array<IRect>, texture: Texture)
      requires rects.Length == NumChars
      ensures Valid() && glyphs == rects && fontTexture == texture && cache == map[]
    {
      glyphs := rects;
      fontTexture := texture;
      cache := map[];
    }

    /**
     * The measuring loop of `PrintToTexture`: the sum of the widths and the
     * greatest height of the glyphs of the drawable characters.
     */
    method Measure(text: string) returns (width: int, height: int)
      requires Valid()
      ensures width == TextWidth(glyphs[..], text) && height == TextHeight(glyphs[..], text)
    {
      width, height := 0, 0;
      for i := 0 to |text|
        invariant width == TextWidth(glyphs[..], text[..i])
        invariant height == TextHeight(glyphs[..], text[..i])
      {
        MeasureStep(glyphs[..], text, i);
        var c := text[i];
        if ' ' <= c <= 'z' {
          var rect := glyphs[c as int - ' ' as int];
          width := width + rect.point2.x - rect.point1.x + 1;
          height := Max(height, rect.point2.y - rect.point1.y + 1);
        }
      }
      assert text[..|text|] == text;
    }

    /** One turn of the pen loop of `DrawText`: draws character `i` when it is drawable and moves the pen past it. */
    method DrawCharacter(gl: Device, text: string, i: nat, pen: Vec2, color: nat, ghost log0: seq<Event>) returns (next: Vec2)
      requires Valid() && gl.Valid() && i < |text|
      requires pen == Vec2(TextWidth(glyphs[..], text[..i]) as real, 0.0)
      requires gl.log == log0 + GlyphEvents(fontTexture.handle, Placements(glyphs[..], Drawn(text[..i])), color)
      modifies gl
      ensures gl.Valid() && gl.live == old(gl.live) && gl.SettingsUnchanged()
      ensures next == Vec2(TextWidth(glyphs[..], text[..i + 1]) as real, 0.0)
      ensures gl.log == log0 + GlyphEvents(fontTexture.handle, Placements(glyphs[..], Drawn(text[..i + 1])), color)
    {
      MeasureStep(glyphs[..], text, i);
      DrawnStep(text, i);
      var c := text[i];
      next := pen;
      if ' ' <= c <= 'z' {
        var rect := glyphs[c as int - ' ' as int];
        var charWidth := rect.point2.x - rect.point1.x + 1;
        ghost var ids := Drawn(text[..i]);
        DrawStep(glyphs[..], ids, GlyphIndex(c), fontTexture.handle, color);
        gl.Issue(DrawTextureRegion(fontTexture.handle, pen, rect.point1, rect.point2, RawRgba(color)));
        next := Vec2(pen.x + charWidth as real, pen.y);
      } else {
        assert Drawn(text[..i + 1]) == Drawn(text[..i]) + [] == Drawn(text[..i]);
      }
    }

    /**
     * The pen loop of `PrintToTexture`: each drawable character's glyph is
     * drawn from the font texture with the pen, which starts at the origin
     * and then moves right by the glyph's width.
     */
    method DrawText(gl: Device, text: string, color: nat)
      requires Valid() && gl.Valid()
      modifies gl
      ensures gl.Valid() && gl.live == old(gl.live) && gl.SettingsUnchanged()
      ensures gl.log == old(gl.log) + GlyphEvents(fontTexture.handle, Placements(glyphs[..], Drawn(text)), color)
    {
      var pen := Vec2(0.0, 0.0);
      for i := 0 to |text|
        invariant gl.Valid() && gl.live == old(gl.live) && gl.SettingsUnchanged()
        invariant pen == Vec2(TextWidth(glyphs[..], text[..i]) as real, 0.0)
        invariant gl.log == old(gl.log) + GlyphEvents(fontTexture.handle, Placements(glyphs[..], Drawn(text[..i])), color)
      {
        pen := DrawCharacter(gl, text, i, pen, color, old(gl.log));
      }
      assert text[..|text|] == text;
    }

    /**
     * The eviction loop: visits every entry once and erases the stale ones,
     * leaving exactly the survivors. Each erased entry held the last
     * reference to its texture, so the texture is destroyed with it; the
     * deletions come in the map's key order, which is not modelled.
     */
    method EvictStale(gl: Device, frame: int, heldElsewhere: set<Texture>)
      requires gl.Valid()
      modifies this, gl
      ensures cache == Survivors(old(cache), frame, heldElsewhere)
      ensures gl.Valid() && gl.SettingsUnchanged()
      ensures DeletedSince(gl, old(gl.log), old(gl.live), EvictedHandles(old(cache), frame, heldElsewhere))
    {
      ghost var c0, log0 := cache, gl.log;
      ghost var stale, names := StaleKeys(c0, frame, heldElsewhere), TextureNames(c0);
      var pending := cache.Keys;
      assert stale - pending == {};
      assert gl.log[|log0|..] == [];
      assert NamesOf(names, {}) == {};
      while pending != {}
        invariant pending <= c0.Keys
        invariant cache == Remaining(c0, pending, frame, heldElsewhere)
        invariant gl.Valid() && gl.SettingsUnchanged()
        invariant DeletedSince(gl, log0, old(gl.live), NamesOf(names, stale - pending))
        decreases |pending|
      {
        var k :| k in pending;
        Visit(gl, k, frame, heldElsewhere, c0, pending, log0, old(gl.live), names);
        pending := pending - {k};
      }
      assert TextureNames(c0) == names;
    }

    /**
     * One turn of the eviction loop: the entry under `k` is erased, and its
     * texture destroyed, exactly when it is stale.
     */
    method Visit(gl: Device, k: string, frame: int, heldElsewhere: set<Texture>, ghost c0: map<string, CacheEntry>,
                 ghost pending: set<string>, ghost log0: seq<Event>, ghost live0: set<Handle>, ghost names: map<string, Handle>)
      requires gl.Valid() && k in pending && pending <= c0.Keys && names == TextureNames(c0)
      requires cache == Remaining(c0, pending, frame, heldElsewhere)
      requires DeletedSince(gl, log0, live0, NamesOf(names, StaleKeys(c0, frame, heldElsewhere) - pending))
      modifies this`cache, gl
      ensures gl.Valid() && gl.SettingsUnchanged()
      ensures cache == Remaining(c0, pending - {k}, frame, heldElsewhere)
      ensures DeletedSince(gl, log0, live0, NamesOf(names, StaleKeys(c0, frame, heldElsewhere) - (pending - {k})))
    {
      ghost var stale := StaleKeys(c0, frame, heldElsewhere);
      ghost var done := stale - pending;
      RemainingStep(c0, pending, k, frame, heldElsewhere);
      if Stale(cache[k], frame, heldElsewhere) {
        var texture := cache[k].texture;
        assert texture.handle == names[k];
        cache := cache - {k};
        DestroyCached(gl, texture, log0, live0, NamesOf(names, done));
        assert stale - (pending - {k}) == done + {k};
        NamesOfAdd(names, done, k);
      } else {
        assert stale - (pending - {k}) == done;
      }
    }

    /**
     * The calls that rendering `text` in `color` into a new texture makes:
     * render-to-texture mode on framebuffer `fb` of `size`, one glyph draw
     * per drawable character, and the return to `viewport` and `clearColor`.
     */
    ghost function RenderEvents(text: string, color: nat, fb: FramebufferWithColor, size: IVec2, viewport: Rect,
                                clearColor: Color, camera: Handle): seq<Event>
      reads this, glyphs, fontTexture
      requires Valid()
    {
      StartEvents(fb, size.x, size.y, camera)
      + GlyphEvents(fontTexture.handle, Placements(glyphs[..], Drawn(text)), color)
      + EndEvents(fb, viewport, clearColor, camera)
    }

    /**
     * `PrintToTexture(text, color)`: the cached texture of `text` in `color`,
     * marked as used in `frame`; otherwise the text is measured, drawn glyph
     * by glyph into a new texture of that size in render-to-texture mode,
     * cached under its key, and stale entries are evicted. `frame` is the
     * window's frame count and `heldElsewhere` the textures referenced from
     * outside the cache; the new texture is also referenced by the caller.
     */
    method PrintToTexture(gl: Device, renderer: Renderer2D, manager: TextureManager, text: string, color: nat,
                          frame: int, heldElsewhere: set<Texture>) returns (t: Texture)
      requires Valid() && gl.Valid()
      modifies this, gl, renderer, manager
      ensures Valid() && gl.Valid()
      ensures CacheKey(text, color) in old(cache) ==>
                t == old(cache)[CacheKey(text, color)].texture
                && cache == old(cache)[CacheKey(text, color) := CacheEntry(t, frame)]
                && gl.log == old(gl.log) && gl.live == old(gl.live)
      ensures CacheKey(text, color) !in old(cache) ==>
                fresh(t) && t.size == IVec2(TextWidth(glyphs[..], text), TextHeight(glyphs[..], text))
                && cache == Survivors(old(cache)[CacheKey(text, color) := CacheEntry(t, frame)], frame, heldElsewhere + {t})
                && CacheKey(text, color) in cache && cache[CacheKey(text, color)].texture == t
                && t.handle != 0 && t.handle !in old(gl.live)
                && old(gl.log) + RenderEvents(text, color, manager.createdFramebuffer, t.size, old(gl.viewport),
                                              old(gl.clearColor), renderer.cameraUniformBuffer) <= gl.log
                && TextureDeletions(gl.log[|old(gl.log) + RenderEvents(text, color, manager.createdFramebuffer, t.size,
                                                                       old(gl.viewport), old(gl.clearColor),
                                                                       renderer.cameraUniformBuffer)|..],
                                    EvictedHandles(old(cache)[CacheKey(text, color) := CacheEntry(t, frame)], frame, heldElsewhere + {t}))
                && gl.live == old(gl.live) + {t.handle}
                              - EvictedHandles(old(cache)[CacheKey(text, color) := CacheEntry(t, frame)], frame, heldElsewhere + {t})
    {
      var key := CacheKey(text, color);
      if key in cache {
        t := cache[key].texture;
        cache := cache[key := cache[key].(usedTime := frame)];
        return;
      }
      t := RenderAndCache(gl, renderer, manager, text, color, frame, heldElsewhere);
    }

    /** The cache miss of `PrintToTexture`: draw the text into a new texture, cache it and evict stale entries. */
    method RenderAndCache(gl: Device, renderer: Renderer2D, manager: TextureManager, text: string, color: nat,
                          frame: int, heldElsewhere: set<Texture>) returns (t: Texture)
      requires Valid() && gl.Valid() && CacheKey(text, color) !in cache
      modifies this, gl, renderer, manager
      ensures Valid() && gl.Valid()
      ensures fresh(t) && t.size == IVec2(TextWidth(glyphs[..], text), TextHeight(glyphs[..], text))
      ensures cache == Survivors(old(cache)[CacheKey(text, color) := CacheEntry(t, frame)], frame, heldElsewhere + {t})
      ensures CacheKey(text, color) in cache && cache[CacheKey(text, color)].texture == t
      ensures t.handle != 0 && t.handle !in old(gl.live)
      ensures old(gl.log) + RenderEvents(text, color, manager.createdFramebuffer, t.size, old(gl.viewport), old(gl.clearColor),
                                         renderer.cameraUniformBuffer) <= gl.log
      ensures TextureDeletions(gl.log[|old(gl.log) + RenderEvents(text, color, manager.createdFramebuffer, t.size, old(gl.viewport),
                                                                  old(gl.clearColor), renderer.cameraUniformBuffer)|..],
                               EvictedHandles(old(cache)[CacheKey(text, color) := CacheEntry(t, frame)], frame, heldElsewhere + {t}))
      ensures gl.live == old(gl.live) + {t.handle}
                         - EvictedHandles(old(cache)[CacheKey(text, color) := CacheEntry(t, frame)], frame, heldElsewhere + {t})
    {
      var key := CacheKey(text, color);
      t := RenderText(gl, renderer, manager, text, color);
      cache := cache[key := CacheEntry(t, frame)];
      EvictStale(gl, frame, heldElsewhere + {t});
      FreshEntrySurvives(old(cache), key, CacheEntry(t, frame), frame, heldElsewhere + {t});
    }

    /**
     * The drawing half of a cache miss: the text measured, then drawn glyph
     * by glyph into a new texture of that size in render-to-texture mode.
     */
    method RenderText(gl: Device, renderer: Renderer2D, manager: TextureManager, text: string, color: nat) returns (t: Texture)
      requires Valid() && gl.Valid()
      modifies gl, renderer, manager
      ensures gl.Valid()
      ensures fresh(t) && t.size == IVec2(TextWidth(glyphs[..], text), TextHeight(glyphs[..], text))
      ensures t.handle != 0 && t.handle !in old(gl.live) && gl.live == old(gl.live) + {t.handle}
      ensures gl.log == old(gl.log) + RenderEvents(text, color, manager.createdFramebuffer, t.size, old(gl.viewport),
                                                   old(gl.clearColor), renderer.cameraUniformBuffer)
    {
      var width, height := Measure(text);
      manager.StartRenderTextureMode(gl, renderer, width, height);
      DrawText(gl, text, color);
      t := manager.EndRenderTextureMode(gl, renderer);
    }
  }
}
