/**
 The pure helpers of the camera GUI (gui.py): the target-range table,
 the in-range classifier that produces the feedback message and colour,
 and the conversion of a colour tuple into a Tk `#rrggbb` string.
 */
module GuiFeedback {
  import opened Wrappers
  import opened Decimal
  import opened Colours

  /** A closed target interval `[lo, hi]` of angles in degrees. */
  datatype Range = Range(lo: int, hi: int)

  /** The chained comparison `lo <= angle <= hi`, inclusive at both ends. */
  predicate InRange(angle: real, range: Range) {
    range.lo as real <= angle <= range.hi as real
  }

  /**
   `obtener_rango_ejercicio(ejercicio, lado)`: exercise 1 is the elbow,
   2 the knee, each with a range per side "izq"/"der" and [0, 180] for
   any other side; any other exercise accepts [0, 360].
   */
  function RangeFor(exercise: int, side: string): (r: Range)
    ensures r.lo <= r.hi
    ensures exercise == 1 || exercise == 2 ==> 0 <= r.lo && r.hi <= 180
    ensures exercise != 1 && exercise != 2 ==> r == Range(0, 360)
    ensures (exercise == 1 || exercise == 2) && side != "izq" && side != "der" ==> r == Range(0, 180)
  {
    if exercise == 1 then
      if side == "izq" then Range(150, 170)
      else if side == "der" then Range(160, 180)
      else Range(0, 180)
    else if exercise == 2 then
      if side == "izq" then Range(160, 180)
      else if side == "der" then Range(170, 180)
      else Range(0, 180)
    else
      Range(0, 360)
  }

  /** The three messages of `feedback_ejercicio`; the last one quotes the range. */
  datatype Message = NotVisible | Correct | OutOfRange(lo: int, hi: int)

  datatype Feedback = Feedback(message: Message, colour: Colour)

  /** `(200, 200, 0)`: the colour shown while the joint is not visible. */
  const NotVisibleColour := Bgr(200, 200, 0)

  /**
   `feedback_ejercicio(angulo, angulo_min, angulo_max)`: no angle means
   "not visible"; an angle in the closed range is correct (green); any
   other angle is out of range (red), and the message names the range.
   */
  function Classify(angle: Option<real>, range: Range): (f: Feedback)
    ensures f.message == NotVisible <==> angle.None?
    ensures f.message == Correct <==> angle.Some? && InRange(angle.value, range)
    ensures f.message.OutOfRange? <==> angle.Some? && !InRange(angle.value, range)
    ensures f.message.OutOfRange? ==> f.message == OutOfRange(range.lo, range.hi)
    ensures f.colour == NotVisibleColour <==> f.message == NotVisible
    ensures f.colour == Green <==> f.message == Correct
    ensures f.colour == Red <==> f.message.OutOfRange?
  {
    match angle
    case None => Feedback(NotVisible, NotVisibleColour)
    case Some(a) =>
      if InRange(a, range) then Feedback(Correct, Green)
      else Feedback(OutOfRange(range.lo, range.hi), Red)
  }

  /** A missing angle gives the same feedback whatever the range. */
  lemma NotVisibleIgnoresRange(r1: Range, r2: Range)
    ensures Classify(None, r1) == Classify(None, r2) == Feedback(NotVisible, Bgr(200, 200, 0))
  {
  }

  const OutOfRangePrefix := "Ángulo fuera de rango ["

  /** The label text of a message; the range is written as Python writes integers. */
  function MessageText(m: Message): (t: string)
    ensures m == NotVisible ==> t == "Articulación no visible"
    ensures m == Correct ==> t == "Ejercicio correcto"
    ensures m.OutOfRange? ==> OutOfRangePrefix <= t && t[|t| - 1] == ']'
    ensures m.OutOfRange? ==> t[|OutOfRangePrefix|..] == IntText(m.lo) + [','] + (" " + IntText(m.hi) + "]")
  {
    match m
    case NotVisible => "Articulación no visible"
    case Correct => "Ejercicio correcto"
    case OutOfRange(lo, hi) =>
      var t := OutOfRangePrefix + IntText(lo) + ", " + IntText(hi) + "]";
      assert t == OutOfRangePrefix + (IntText(lo) + [','] + (" " + IntText(hi) + "]"));
      t
  }

  predicate NoComma(s: string) {
    forall i :: 0 <= i < |s| ==> s[i] != ','
  }

  lemma CommaAfter(a: string, x: string)
    ensures (a + [','] + x)[|a|] == ','
  {
  }

  /** A string split at its first comma splits in one way only. */
  lemma SplitAtComma(a: string, x: string, c: string, y: string)
    requires NoComma(a) && NoComma(c)
    requires a + [','] + x == c + [','] + y
    ensures a == c && x == y
  {
    var s := a + [','] + x;
    if |a| < |c| {
      CommaAfter(a, x);
      assert false;
    } else if |c| < |a| {
      CommaAfter(c, y);
      assert false;
    }
    assert a == s[..|a|];
    assert c == s[..|c|];
    assert x == s[|a| + 1..];
    assert y == s[|c| + 1..];
  }

  /** The out-of-range text determines the range it quotes. */
  lemma OutOfRangeTextInjective(lo1: int, hi1: int, lo2: int, hi2: int)
    requires MessageText(OutOfRange(lo1, hi1)) == MessageText(OutOfRange(lo2, hi2))
    ensures lo1 == lo2 && hi1 == hi2
  {
    var b, d := IntText(hi1), IntText(hi2);
    var x, y := " " + b + "]", " " + d + "]";
    SplitAtComma(IntText(lo1), x, IntText(lo2), y);
    ClosingPart(b, d);
    IntTextInjective(lo1, lo2);
    IntTextInjective(hi1, hi2);
  }

  /** The part after the comma determines the second number's text. */
  lemma ClosingPart(b: string, d: string)
    requires " " + b + "]" == " " + d + "]"
    ensures b == d
  {
    assert b == (" " + b + "]")[1..|b| + 1];
    assert d == (" " + d + "]")[1..|d| + 1];
  }

  /** The first letter tells the three kinds of message apart. */
  function Initial(m: Message): char {
    match m
    case NotVisible => 'A'
    case Correct => 'E'
    case OutOfRange(_, _) => 'Á'
  }

  lemma InitialOfText(m: Message)
    ensures |MessageText(m)| > 0 && MessageText(m)[0] == Initial(m)
  {
    if m.OutOfRange? {
      assert MessageText(m)[0] == OutOfRangePrefix[0];
    }
  }

  /** Different messages produce different label texts. */
  lemma MessageTextInjective(m1: Message, m2: Message)
    ensures MessageText(m1) == MessageText(m2) ==> m1 == m2
  {
    if MessageText(m1) == MessageText(m2) {
      InitialOfText(m1);
      InitialOfText(m2);
      if m1.OutOfRange? && m2.OutOfRange? {
        OutOfRangeTextInjective(m1.lo, m1.hi, m2.lo, m2.hi);
      }
    }
  }

  predicate IsHexDigit(ch: char) {
    '0' <= ch <= '9' || 'a' <= ch <= 'f'
  }

  function HexDigit(d: int): (ch: char)
    requires 0 <= d < 16
    ensures IsHexDigit(ch)
  {
    "0123456789abcdef"[d]
  }

  function HexValue(ch: char): (d: int)
    requires IsHexDigit(ch)
    ensures 0 <= d < 16
    ensures HexDigit(d) == ch
  {
    if ch <= '9' then ch as int - '0' as int else ch as int - 'a' as int + 10
  }

  lemma HexValueOfDigit(d: int)
    requires 0 <= d < 16
    ensures HexValue(HexDigit(d)) == d
  {
  }

  /** The format field `{:02x}` for a channel: two lower-case hex digits. */
  function Hex2(n: Channel): (s: string)
    ensures |s| == 2 && IsHexDigit(s[0]) && IsHexDigit(s[1])
    ensures HexValue(s[0]) * 16 + HexValue(s[1]) == n
  {
    HexValueOfDigit(n / 16);
    HexValueOfDigit(n % 16);
    [HexDigit(n / 16), HexDigit(n % 16)]
  }

  /**
   `rgb_to_hex(rgb)`: the tuple is read back to front, so a BGR colour
   becomes Tk's `#rrggbb`.
   */
  function RgbToHex(c: Colour): (s: string)
    ensures |s| == 7 && s[0] == '#'
    ensures forall i :: 1 <= i < 7 ==> IsHexDigit(s[i])
  {
    "#" + Hex2(c.r) + Hex2(c.g) + Hex2(c.b)
  }

  function ByteOf(hi: char, lo: char): Channel
    requires IsHexDigit(hi) && IsHexDigit(lo)
  {
    HexValue(hi) * 16 + HexValue(lo)
  }

  /** Reads a Tk colour string `#rrggbb` (lower-case digits) back into a BGR colour. */
  function ParseHexColour(s: string): Option<Colour> {
    if && |s| == 7 && s[0] == '#'
       && IsHexDigit(s[1]) && IsHexDigit(s[2]) && IsHexDigit(s[3])
       && IsHexDigit(s[4]) && IsHexDigit(s[5]) && IsHexDigit(s[6])
    then
      Some(Bgr(ByteOf(s[5], s[6]), ByteOf(s[3], s[4]), ByteOf(s[1], s[2])))
    else
      None
  }

  /** The characters of a rendering, position by position. */
  lemma RgbToHexChars(c: Colour)
    ensures var s := RgbToHex(c);
      && s[1] == Hex2(c.r)[0] && s[2] == Hex2(c.r)[1]
      && s[3] == Hex2(c.g)[0] && s[4] == Hex2(c.g)[1]
      && s[5] == Hex2(c.b)[0] && s[6] == Hex2(c.b)[1]
  {
  }

  /** Every colour is recovered from its hex string. */
  lemma ParseRgbToHex(c: Colour)
    ensures ParseHexColour(RgbToHex(c)) == Some(c)
  {
    var s := RgbToHex(c);
    RgbToHexChars(c);
    assert ByteOf(s[1], s[2]) == c.r;
    assert ByteOf(s[3], s[4]) == c.g;
    assert ByteOf(s[5], s[6]) == c.b;
  }

  /** Every well-formed hex string is the rendering of the colour it parses to. */
  lemma RgbToHexOfParse(s: string)
    ensures ParseHexColour(s).Some? ==> RgbToHex(ParseHexColour(s).value) == s
  {
    if ParseHexColour(s).Some? {
      var c := ParseHexColour(s).value;
      Hex2OfByte(s[1], s[2]);
      Hex2OfByte(s[3], s[4]);
      Hex2OfByte(s[5], s[6]);
      RenderFromParts(c, s);
    }
  }

  /** A string made of "#" and the three channels' digit pairs is the colour's rendering. */
  lemma RenderFromParts(c: Colour, s: string)
    requires |s| == 7 && s[0] == '#'
    requires Hex2(c.r) == [s[1], s[2]] && Hex2(c.g) == [s[3], s[4]] && Hex2(c.b) == [s[5], s[6]]
    ensures RgbToHex(c) == s
  {
    JoinPairs(s, Hex2(c.r), Hex2(c.g), Hex2(c.b));
  }

  lemma JoinPairs(s: string, x: string, y: string, z: string)
    requires |s| == 7 && s[0] == '#'
    requires x == [s[1], s[2]] && y == [s[3], s[4]] && z == [s[5], s[6]]
    ensures "#" + x + y + z == s
  {
  }

  lemma Hex2OfByte(hi: char, lo: char)
    requires IsHexDigit(hi) && IsHexDigit(lo)
    ensures Hex2(ByteOf(hi, lo)) == [hi, lo]
  {
    var n := ByteOf(hi, lo);
    assert n / 16 == HexValue(hi);
    assert n % 16 == HexValue(lo);
  }

  /** The three feedback colours as Tk shows them. */
  lemma FeedbackColoursRendered()
    ensures RgbToHex(Green) == "#00ff00"
    ensures RgbToHex(Red) == "#ff0000"
    ensures RgbToHex(NotVisibleColour) == "#00c8c8"
  {
  }
}
