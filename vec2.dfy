/**
 * The engine's two small vector types: `ivec2` (integer components) and
 * `vec2` (double components, modelled as `real`). Operators that build a
 * new value are functions; the compound assignments, `Normalize` and the
 * stream extraction change a variable in place and are methods of the
 * classes `IVec2Var` and `Vec2Var`, which stand for a named variable of
 * each type.
 */
module Vec2 {
  import opened Text

  datatype IVec2 = IVec2(x: int, y: int)
  datatype Vec2 = Vec2(x: real, y: real)

  // ---------------------------------------------------------------------
  // C++ conversions and division, which truncate toward zero
  // ---------------------------------------------------------------------

  function Abs(a: int): nat { if a < 0 then -a else a }

  /** C++ `int / int`: the quotient rounded toward zero. */
  function TruncDiv(a: int, b: int): int
    requires b != 0
  {
    var m := Abs(a) / Abs(b);
    if (a < 0) != (b < 0) then -m else m
  }

  /** `static_cast<int>(d)`: the integer part of `d`, rounded toward zero. */
  function TruncReal(r: real): (i: int)
    ensures r >= 0.0 ==> 0 <= i && i as real <= r < i as real + 1.0
    ensures r < 0.0 ==> i <= 0 && i as real - 1.0 < r <= i as real
  {
    if r >= 0.0 then r.Floor else -((-r).Floor)
  }

  // ---------------------------------------------------------------------
  // ivec2
  // ---------------------------------------------------------------------

  /** `ivec2{}`: both components zero. */
  const IZero := IVec2(0, 0)

  /** `explicit ivec2(int xy)`: the same value in both components. */
  function ISplat(xy: int): (v: IVec2)
    ensures v.x == v.y == xy
  {
    IVec2(xy, xy)
  }

  function IAdd(a: IVec2, b: IVec2): IVec2 { IVec2(a.x + b.x, a.y + b.y) }
  function ISub(a: IVec2, b: IVec2): IVec2 { IVec2(a.x - b.x, a.y - b.y) }
  function INeg(a: IVec2): IVec2 { IVec2(-a.x, -a.y) }
  /** Unary `+` returns a copy of its operand. */
  function IPlus(a: IVec2): IVec2 { a }
  /** `v * s`. */
  function IScale(v: IVec2, s: int): IVec2 { IVec2(v.x * s, v.y * s) }
  /** `s * v`, which the source defines as `v * s`. */
  function IScaleLeft(s: int, v: IVec2): IVec2 { IScale(v, s) }
  /** `v / s`: each component divided with C++ truncating division. */
  function IDiv(v: IVec2, s: int): IVec2
    requires s != 0
  {
    IVec2(TruncDiv(v.x, s), TruncDiv(v.y, s))
  }
  /** `operator==` compares componentwise. */
  predicate IEq(a: IVec2, b: IVec2) { a.x == b.x && a.y == b.y }
  /** `operator!=` is the negation of `operator==`. */
  predicate INe(a: IVec2, b: IVec2) { !IEq(a, b) }

  /** The source's equality is exactly value equality of the two components. */
  lemma IEqIsEquality(a: IVec2, b: IVec2)
    ensures IEq(a, b) <==> a == b
    ensures INe(a, b) <==> a != b
  {
  }

  /** Subtraction undoes addition and negation is an involution. */
  lemma IAddSubInverse(a: IVec2, b: IVec2)
    ensures ISub(IAdd(a, b), b) == a
    ensures INeg(INeg(a)) == a
    ensures IAdd(a, INeg(b)) == ISub(a, b)
  {
  }

  /** `s * v` multiplies each component by `s` on the left, the same value as `v * s`. */
  lemma IScaleCommutes(v: IVec2, s: int)
    ensures IScaleLeft(s, v) == IVec2(s * v.x, s * v.y)
    ensures IScale(v, s) == IScaleLeft(s, v)
  {
  }

  /**
   * Division by an int truncates each component toward zero: every
   * component of the quotient times `s` is no further from zero than the
   * dividend and falls short of it by less than `|s|`, and a non-zero
   * quotient is negative exactly when the signs of the operands differ.
   */
  lemma IDivTruncates(v: IVec2, s: int)
    requires s != 0
    ensures Abs(IDiv(v, s).x) * Abs(s) <= Abs(v.x) < (Abs(IDiv(v, s).x) + 1) * Abs(s)
    ensures Abs(IDiv(v, s).y) * Abs(s) <= Abs(v.y) < (Abs(IDiv(v, s).y) + 1) * Abs(s)
    ensures IDiv(v, s).x == 0 || ((IDiv(v, s).x < 0) == ((v.x < 0) != (s < 0)))
    ensures IDiv(v, s).y == 0 || ((IDiv(v, s).y < 0) == ((v.y < 0) != (s < 0)))
  {
    TruncDivMagnitude(v.x, s);
    TruncDivMagnitude(v.y, s);
    DivBounds(Abs(v.x), Abs(s));
    DivBounds(Abs(v.y), Abs(s));
  }

  lemma TruncDivMagnitude(a: int, b: int)
    requires b != 0
    ensures Abs(TruncDiv(a, b)) == Abs(a) / Abs(b)
  {
    var m := Abs(a) / Abs(b);
    assert m >= 0;
  }

  lemma DivBounds(a: nat, b: nat)
    requires b > 0
    ensures (a / b) * b <= a < (a / b + 1) * b
  {
  }

  /** Truncation differs from Dafny's Euclidean division for a negative dividend. */
  lemma IDivNegativeExample()
    ensures IDiv(IVec2(-7, 7), 2) == IVec2(-3, 3)
    ensures -7 / 2 == -4
  {
  }

  // ---------------------------------------------------------------------
  // vec2
  // ---------------------------------------------------------------------

  const Zero := Vec2(0.0, 0.0)

  /** `explicit vec2(double xy)`. */
  function Splat(xy: real): (v: Vec2)
    ensures v.x == v.y == xy
  {
    Vec2(xy, xy)
  }

  function Add(a: Vec2, b: Vec2): Vec2 { Vec2(a.x + b.x, a.y + b.y) }
  function Sub(a: Vec2, b: Vec2): Vec2 { Vec2(a.x - b.x, a.y - b.y) }
  function Neg(a: Vec2): Vec2 { Vec2(-a.x, -a.y) }
  function Plus(a: Vec2): Vec2 { a }
  function Scale(v: Vec2, s: real): Vec2 { Vec2(v.x * s, v.y * s) }
  function ScaleLeft(s: real, v: Vec2): Vec2 { Scale(v, s) }
  function Div(v: Vec2, s: real): Vec2
    requires s != 0.0
  {
    Vec2(v.x / s, v.y / s)
  }

  /** `s * v` multiplies each component by `s` on the left, the same value as `v * s`. */
  lemma ScaleCommutes(v: Vec2, s: real)
    ensures ScaleLeft(s, v) == Vec2(s * v.x, s * v.y)
    ensures Scale(v, s) == ScaleLeft(s, v)
  {
  }

  /** `explicit vec2(const ivec2&)`: each component converted exactly. */
  function FromIVec2(v: IVec2): (r: Vec2)
    ensures r.x.Floor == v.x && r.y.Floor == v.y
    ensures r.x == r.x.Floor as real && r.y == r.y.Floor as real
  {
    Vec2(v.x as real, v.y as real)
  }

  /** `explicit ivec2(const vec2&)`: each component truncated toward zero. */
  function FromVec2(v: Vec2): (r: IVec2)
    ensures Abs(r.x) as real <= (if v.x < 0.0 then -v.x else v.x)
    ensures Abs(r.y) as real <= (if v.y < 0.0 then -v.y else v.y)
  {
    IVec2(TruncReal(v.x), TruncReal(v.y))
  }

  /** Converting an ivec2 to vec2 and back loses nothing. */
  lemma IntRoundTrip(v: IVec2)
    ensures FromVec2(FromIVec2(v)) == v
  {
  }

  /** The truncating conversion rounds toward zero, not down. */
  lemma FromVec2NegativeExample()
    ensures FromVec2(Vec2(-2.5, 2.5)) == IVec2(-2, 2)
  {
  }

  /** The square of `Length()`: the sum of the squared components. */
  function LengthSquared(v: Vec2): real {
    v.x * v.x + v.y * v.y
  }

  /**
   * `Length()` is `std::sqrt(x*x + y*y)`; the model has no square root, so a
   * length is any non-negative `l` whose square is `LengthSquared(v)`.
   */
  predicate IsLengthOf(l: real, v: Vec2) {
    l >= 0.0 && l * l == LengthSquared(v)
  }

  // ---------------------------------------------------------------------
  // Stream operators of ivec2
  // ---------------------------------------------------------------------

  /** `os << v` writes "{ x, y }". */
  function Format(v: IVec2): (s: string)
    ensures |s| >= 4 && s[..2] == "{ " && s[|s| - 2..] == " }"
  {
    "{ " + Decimal(v.x) + ", " + Decimal(v.y) + " }"
  }

  /** The result of `is >> v`. */
  datatype Extraction = Extraction(value: IVec2, ok: bool, rest: string)

  /** One `is >> n` applied to a component: its new value and whether the stream is still good. */
  function ReadComponent(r: ReadInt, old_value: int): int {
    match r
    case Read(n, _) => n
    case OutOfRange(n, _) => n
    case Fail(_) => 0
    case Eof => old_value
  }

  /**
   * `is >> v.x >> v.y`: two formatted integer extractions; once the first
   * fails the second is skipped and `v.y` keeps its value. The unread input
   * is what the failing extraction left, or what the second one left.
   */
  function Extract(input: string, v: IVec2): (e: Extraction)
    ensures IsSuffix(e.rest, input)
    ensures e.ok ==> |e.rest| < |input| && InInt(e.value.x) && InInt(e.value.y)
  {
    var rx := ExtractInt(input);
    if !rx.Read? then Extraction(IVec2(ReadComponent(rx, v.x), v.y), false, Unread(rx))
    else
      var ry := ExtractInt(rx.rest);
      SuffixTransitive(Unread(ry), rx.rest, input);
      if !ry.Read? then Extraction(IVec2(rx.value, ReadComponent(ry, v.y)), false, Unread(ry))
      else Extraction(IVec2(rx.value, ry.value), true, ry.rest)
  }

  /** Extraction reads the bare form "x y" back exactly. */
  lemma ExtractBare(v: IVec2, w: IVec2)
    requires InInt(v.x) && InInt(v.y)
    ensures Extract(Decimal(v.x) + " " + Decimal(v.y), w) == Extraction(v, true, "")
  {
    var sx, sy := Decimal(v.x), Decimal(v.y);
    assert sx + " " + sy == sx + (" " + sy);
    ExtractDecimal(v.x, " " + sy);
    ExtractAfterSpace(v.y);
  }

  /**
   * A first component too large for `int` stores `INT_MAX` in `x`, fails the
   * stream after consuming its digits and leaves `y` unread.
   */
  lemma ExtractOutOfRange(i: int, y: int, w: IVec2)
    requires i > IntMax
    ensures Extract(Decimal(i) + " " + Decimal(y), w) == Extraction(IVec2(IntMax, w.y), false, " " + Decimal(y))
  {
    var sx, sy := Decimal(i), Decimal(y);
    assert sx + " " + sy == sx + (" " + sy);
    ExtractDecimal(i, " " + sy);
  }

  /**
   * A second component that does not start a number sets `y` to 0, fails the
   * stream and consumes the whitespace before it.
   */
  lemma ExtractSecondFails(i: int, w: IVec2)
    requires InInt(i)
    ensures Extract(Decimal(i) + " x", w) == Extraction(IVec2(i, 0), false, "x")
  {
    ExtractDecimal(i, " x");
    ExtractSpaceLetter();
  }

  lemma ExtractSpaceLetter()
    ensures ExtractInt(" x") == Fail("x")
  {
    var t := " x";
    assert t[0] == ' ' && t[1..] == "x" && "x"[0] == 'x';
    assert !IsSpace('x') && !IsDigit('x');
    assert SpacePrefix("x") == 0;
    assert SpacePrefix(t) == 1;
    assert DigitPrefix("x") == 0;
    assert ReadDigits("x", false) == Fail("x");
  }

  /** Input holding only whitespace reaches its end: nothing is stored and nothing is left to read. */
  lemma ExtractBlank(w: IVec2)
    ensures Extract("   ", w) == Extraction(w, false, "")
  {
    assert SpacePrefix("   ") == 3;
  }

  lemma ExtractAfterSpace(i: int)
    requires InInt(i)
    ensures ExtractInt(" " + Decimal(i)) == Read(i, "")
  {
    var sy := Decimal(i);
    var t := " " + sy;
    ExtractDecimal(i, "");
    assert sy + "" == sy;
    NoLeadingSpace(i);
    assert t[1..] == sy;
    assert SpacePrefix(t) == 1 + SpacePrefix(sy);
    assert t[SpacePrefix(t)..] == sy;
  }

  lemma NoLeadingSpace(i: int)
    ensures SpacePrefix(Decimal(i)) == 0
  {
    DecimalSign(i);
    DecimalDigitsAreDigits(if i < 0 then -i else i);
    if i >= 0 {
      assert IsDigit(Decimal(i)[0]);
    }
  }

  /**
   * The two stream operators are not inverse: what `operator<<` writes starts
   * with a brace, so `operator>>` fails on its first component and stores 0.
   */
  lemma ExtractFormatFails(v: IVec2, w: IVec2)
    ensures !Extract(Format(v), w).ok
    ensures Extract(Format(v), w).value == IVec2(0, w.y)
  {
    var s := Format(v);
    assert s[0] == '{';
    assert SpacePrefix(s) == 0;
    assert s[0..] == s;
    assert DigitPrefix(s) == 0;
  }

  // ---------------------------------------------------------------------
  // Variables updated in place
  // ---------------------------------------------------------------------

  /** An `ivec2` variable: the target of the compound assignments and of `>>`. */
  class IVec2Var {
    var x: int
    var y: int

    function Value(): IVec2
      reads this
    {
      IVec2(x, y)
    }

    /** `ivec2 v{}` */
    constructor ()
      ensures Value() == IZero
    {
      x, y := 0, 0;
    }

    /** `ivec2 v{x_, y_}` */
    constructor Of(x0: int, y0: int)
      ensures Value() == IVec2(x0, y0)
    {
      x, y := x0, y0;
    }

    /** `v += rhs`: same value as `v + rhs`; returns the variable itself. */
    method AddAssign(rhs: IVec2) returns (self: IVec2Var)
      modifies this
      ensures Value() == IAdd(old(Value()), rhs)
      ensures self == this
    {
      x := x + rhs.x;
      y := y + rhs.y;
      self := this;
    }

    /** `v -= rhs`: same value as `v - rhs`. */
    method SubAssign(rhs: IVec2) returns (self: IVec2Var)
      modifies this
      ensures Value() == ISub(old(Value()), rhs)
      ensures self == this
    {
      x := x - rhs.x;
      y := y - rhs.y;
      self := this;
    }

    /** `v *= s`: same value as `v * s`. */
    method MulAssign(s: int) returns (self: IVec2Var)
      modifies this
      ensures Value() == IScale(old(Value()), s)
      ensures self == this
    {
      x := x * s;
      y := y * s;
      self := this;
    }

    /** `v /= s`: same value as `v / s`, truncating. */
    method DivAssign(s: int) returns (self: IVec2Var)
      requires s != 0
      modifies this
      ensures Value() == IDiv(old(Value()), s)
      ensures self == this
    {
      x := TruncDiv(x, s);
      y := TruncDiv(y, s);
      self := this;
    }

    /** `is >> v`: reads x then y; returns whether both reads succeeded and the unread input. */
    method ReadFrom(input: string) returns (ok: bool, rest: string)
      modifies this
      ensures Extract(input, old(Value())) == Extraction(Value(), ok, rest)
    {
      var rx := ExtractInt(input);
      x := ReadComponent(rx, x);
      if !rx.Read? {
        ok, rest := false, Unread(rx);
        return;
      }
      var ry := ExtractInt(rx.rest);
      y := ReadComponent(ry, y);
      ok := ry.Read?;
      rest := Unread(ry);
    }
  }

  /** A `vec2` variable: the target of `Normalize` and the compound assignments. */
  class Vec2Var {
    var x: real
    var y: real

    function Value(): Vec2
      reads this
    {
      Vec2(x, y)
    }

    constructor Of(x0: real, y0: real)
      ensures Value() == Vec2(x0, y0)
    {
      x, y := x0, y0;
    }

    method AddAssign(rhs: Vec2) returns (self: Vec2Var)
      modifies this
      ensures Value() == Add(old(Value()), rhs)
      ensures self == this
    {
      x := x + rhs.x;
      y := y + rhs.y;
      self := this;
    }

    method SubAssign(rhs: Vec2) returns (self: Vec2Var)
      modifies this
      ensures Value() == Sub(old(Value()), rhs)
      ensures self == this
    {
      x := x - rhs.x;
      y := y - rhs.y;
      self := this;
    }

    method MulAssign(s: real) returns (self: Vec2Var)
      modifies this
      ensures Value() == Scale(old(Value()), s)
      ensures self == this
    {
      x := x * s;
      y := y * s;
      self := this;
    }

    method DivAssign(s: real) returns (self: Vec2Var)
      requires s != 0.0
      modifies this
      ensures Value() == Div(old(Value()), s)
      ensures self == this
    {
      x := x / s;
      y := y / s;
      self := this;
    }

    /**
     * `Normalize()`, given the length the source computes with `std::sqrt`: a
     * zero vector is left unchanged; otherwise both components are divided by
     * the length, so the new value has length one and points the same way.
     * Returns a copy of the new value.
     */
    method Normalize(length: real) returns (r: Vec2)
      requires IsLengthOf(length, Value())
      modifies this
      ensures r == Value()
      ensures old(LengthSquared(Value())) <= 0.0 ==> Value() == old(Value())
      ensures old(LengthSquared(Value())) > 0.0 ==> Scale(Value(), length) == old(Value())
    {
      var lengthSq := x * x + y * y;
      if lengthSq > 0.0 {
        if length == 0.0 {
          assert length * length == 0.0;
        }
        ghost var x0, y0 := x, y;
        x := x / length;
        y := y / length;
        assert x * length == x0 && y * length == y0;
      }
      r := Vec2(x, y);
    }
  }
}
