/**
 * The engine's keyboard key enumeration (`CS230::Input::Keys`), its
 * pre-increment operator and the `to_string` name table.
 */
module Input {

  /** The enumerators in declaration order; `Count` is the last one. */
  datatype Key =
    A | B | C | D | E | F | G | H | I
    | J | K | L | M | N | O | P | Q | R
    | S | T | U | V | W | X | Y | Z | One
    | Two | Three | Four | Numpad4 | Numpad5 | Numpad6 | Numpad8 | Space | Enter
    | Left | Up | Right | Down | Escape | Tab | Count

  datatype Option = None | Some(key: Key)

  /** Number of enumerators, `Count` included. */
  const KeyCount: nat := 43

  /** The range of the unsigned value `operator++` computes with. */
  const UnsignedRange: nat := 0x1_0000_0000

  /** The underlying value of an enumerator: its position in the declaration. */
  function Ordinal(k: Key): (n: nat)
    ensures n < KeyCount
  {
    match k
    case A => 0
    case B => 1
    case C => 2
    case D => 3
    case E => 4
    case F => 5
    case G => 6
    case H => 7
    case I => 8
    case J => 9
    case K => 10
    case L => 11
    case M => 12
    case N => 13
    case O => 14
    case P => 15
    case Q => 16
    case R => 17
    case S => 18
    case T => 19
    case U => 20
    case V => 21
    case W => 22
    case X => 23
    case Y => 24
    case Z => 25
    case One => 26
    case Two => 27
    case Three => 28
    case Four => 29
    case Numpad4 => 30
    case Numpad5 => 31
    case Numpad6 => 32
    case Numpad8 => 33
    case Space => 34
    case Enter => 35
    case Left => 36
    case Up => 37
    case Right => 38
    case Down => 39
    case Escape => 40
    case Tab => 41
    case Count => 42
  }

  /** The enumerator whose underlying value is `n` (a balanced search over the 43 values). */
  function KeyAt(n: nat): Key
    requires n < KeyCount
  {
    if n < 21 then
      if n < 10 then
        if n < 5 then
          if n < 2 then
            if n < 1 then
              A
            else
              B
          else
            if n < 3 then
              C
            else
              if n < 4 then
                D
              else
                E
        else
          if n < 7 then
            if n < 6 then
              F
            else
              G
          else
            if n < 8 then
              H
            else
              if n < 9 then
                I
              else
                J
      else
        if n < 15 then
          if n < 12 then
            if n < 11 then
              K
            else
              L
          else
            if n < 13 then
              M
            else
              if n < 14 then
                N
              else
                O
        else
          if n < 18 then
            if n < 16 then
              P
            else
              if n < 17 then
                Q
              else
                R
          else
            if n < 19 then
              S
            else
              if n < 20 then
                T
              else
                U
    else
      if n < 32 then
        if n < 26 then
          if n < 23 then
            if n < 22 then
              V
            else
              W
          else
            if n < 24 then
              X
            else
              if n < 25 then
                Y
              else
                Z
        else
          if n < 29 then
            if n < 27 then
              One
            else
              if n < 28 then
                Two
              else
                Three
          else
            if n < 30 then
              Four
            else
              if n < 31 then
                Numpad4
              else
                Numpad5
      else
        if n < 37 then
          if n < 34 then
            if n < 33 then
              Numpad6
            else
              Numpad8
          else
            if n < 35 then
              Space
            else
              if n < 36 then
                Enter
              else
                Left
        else
          if n < 40 then
            if n < 38 then
              Up
            else
              if n < 39 then
                Right
              else
                Down
          else
            if n < 41 then
              Escape
            else
              if n < 42 then
                Tab
              else
                Count
  }

  /** Position in the declaration and underlying value agree. */
  lemma KeyAtOrdinal(k: Key)
    ensures KeyAt(Ordinal(k)) == k
  {
  }

  /** The underlying value of the enumerator at position `n` is `n`. */
  lemma OrdinalKeyAt(n: nat)
    requires n < KeyCount
    ensures Ordinal(KeyAt(n)) == n
  {
  }

  /** The name `to_string` gives each enumerator. */
  function Name(k: Key): string {
    match k
    case A => "A"
    case B => "B"
    case C => "C"
    case D => "D"
    case E => "E"
    case F => "F"
    case G => "G"
    case H => "H"
    case I => "I"
    case J => "J"
    case K => "K"
    case L => "L"
    case M => "M"
    case N => "N"
    case O => "O"
    case P => "P"
    case Q => "Q"
    case R => "R"
    case S => "S"
    case T => "T"
    case U => "U"
    case V => "V"
    case W => "W"
    case X => "X"
    case Y => "Y"
    case Z => "Z"
    case One => "1"
    case Two => "2"
    case Three => "3"
    case Four => "4"
    case Numpad4 => "Numpad4"
    case Numpad5 => "Numpad5"
    case Numpad6 => "Numpad6"
    case Numpad8 => "Numpad8"
    case Space => "Space"
    case Enter => "Enter"
    case Left => "Left"
    case Up => "Up"
    case Right => "Right"
    case Down => "Down"
    case Escape => "Escape"
    case Tab => "Tab"
    case Count => "Count"
  }

  /**
   * `to_string(key)` for any underlying value a `Keys` variable can hold:
   * the enumerator's name, or "Unknown" outside the enumeration.
   */
  function ToString(code: nat): string {
    if code < KeyCount then Name(KeyAt(code)) else "Unknown"
  }

  /** Inverse of the name table: the key a name belongs to, if any. */
  function FromName(s: string): Option {
    if |s| == 1 then
      if 'A' <= s[0] <= 'Z' then Some(KeyAt(s[0] as int - 'A' as int))
      else if '1' <= s[0] <= '4' then Some(KeyAt(26 + s[0] as int - '1' as int))
      else None
    else if s == "Numpad4" then Some(Numpad4)
    else if s == "Numpad5" then Some(Numpad5)
    else if s == "Numpad6" then Some(Numpad6)
    else if s == "Numpad8" then Some(Numpad8)
    else if s == "Space" then Some(Space)
    else if s == "Enter" then Some(Enter)
    else if s == "Left" then Some(Left)
    else if s == "Up" then Some(Up)
    else if s == "Right" then Some(Right)
    else if s == "Down" then Some(Down)
    else if s == "Escape" then Some(Escape)
    else if s == "Tab" then Some(Tab)
    else if s == "Count" then Some(Count)
    else None
  }

  /** Every enumerator's name leads back to it, so no two enumerators share a name. */
  lemma NameRoundTrip(k: Key)
    ensures FromName(Name(k)) == Some(k)
  {
    KeyAtOrdinal(k);
    if Ordinal(k) < 26 {
      LetterNames(k);
    } else if Ordinal(k) < 30 {
      DigitNames(k);
    }
  }

  /** `to_string` gives distinct strings to the 43 enumerators, `Count` included. */
  lemma {:induction false} NamesDistinct(i: nat, j: nat)
    requires i < KeyCount && j < KeyCount && i != j
    ensures ToString(i) != ToString(j)
  {
    OrdinalKeyAt(i);
    OrdinalKeyAt(j);
    NameRoundTrip(KeyAt(i));
    NameRoundTrip(KeyAt(j));
  }

  /** The 26 letters are named by the single upper-case letter. */
  lemma LetterNames(k: Key)
    requires Ordinal(k) < 26
    ensures Name(k) == [('A' as int + Ordinal(k)) as char]
  {
  }

  /** One to Four are named by their digit. */
  lemma DigitNames(k: Key)
    requires 26 <= Ordinal(k) < 30
    ensures Name(k) == [('1' as int + Ordinal(k) - 26) as char]
  {
  }

  /** "Unknown" is the name of no enumerator: it is returned exactly outside the enumeration. */
  lemma UnknownOnlyOutside(code: nat)
    ensures ToString(code) == "Unknown" <==> code >= KeyCount
  {
    if code < KeyCount {
      NameRoundTrip(KeyAt(code));
      assert FromName("Unknown") == None;
    }
  }

  /** `Count` is the last enumerator and exactly 42 real keys precede it. */
  lemma CountIsLast(k: Key)
    ensures Ordinal(Count) == KeyCount - 1 == 42
    ensures k != Count ==> Ordinal(k) < 42
  {
  }

  /** Enumerators are identified by their underlying value. */
  lemma OrdinalInjective(a: Key, b: Key)
    requires Ordinal(a) == Ordinal(b)
    ensures a == b
  {
    KeyAtOrdinal(a);
    KeyAtOrdinal(b);
  }

  /** A variable of type `Keys`, which holds an underlying unsigned value. */
  class KeyVar {
    var code: nat

    ghost predicate Valid()
      reads this
    {
      code < UnsignedRange
    }

    constructor (k: Key)
      ensures Valid() && code == Ordinal(k)
    {
      code := Ordinal(k);
    }

    /**
     * `++key`: the underlying value plus one, in unsigned arithmetic; returns
     * the variable itself.
     */
    method Increment() returns (self: KeyVar)
      requires Valid()
      modifies this
      ensures Valid()
      ensures code == (old(code) + 1) % UnsignedRange
      ensures self == this
    {
      code := (code + 1) % UnsignedRange;
      self := this;
    }
  }

  /**
   * Stepping from any enumerator but `Count` gives the next one in
   * declaration order; stepping from `Count` leaves the enumeration.
   */
  lemma IncrementOrder(k: Key)
    ensures k != Count ==> Ordinal(k) + 1 < KeyCount && Ordinal(KeyAt(Ordinal(k) + 1)) == Ordinal(k) + 1
    ensures k == Count ==> ToString((Ordinal(k) + 1) % UnsignedRange) == "Unknown"
  {
    if k != Count {
      OrdinalKeyAt(Ordinal(k) + 1);
    }
  }
}
