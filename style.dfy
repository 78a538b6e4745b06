/** The theme helpers: `spacing` for CSS lengths and `mediaQuery` for breakpoints. */
module Style {
  import opened Wrappers
  import opened Numbers
  import opened TimezoneTypes

  /**
   * One argument of `spacing`, counted in half-units: the source takes
   * multiples of 0.5 of an 8 px unit, so `k` half-units are `4 * k` pixels.
   */
  function Length(halfUnits: nat): (r: string)
    ensures |r| >= 3 && r[|r| - 2..] == "px"
    ensures ' ' !in r
    ensures AllDigits(r[..|r| - 2]) && DigitsValue(r[..|r| - 2]) == 4 * halfUnits
  {
    var digits := NatToString(4 * halfUnits);
    assert forall i :: 0 <= i < |digits| ==> digits[i] != ' ';
    assert (digits + "px")[..|digits|] == digits;
    DigitsValueOfNatToString(4 * halfUnits);
    digits + "px"
  }

  /** The parts joined with one separator between neighbours (`join`). */
  function Join(parts: seq<string>, sep: char): string {
    if |parts| == 0 then ""
    else if |parts| == 1 then parts[0]
    else parts[0] + [sep] + Join(parts[1..], sep)
  }

  /** `spacing(n1, …, nk)`: each length, joined by single spaces. */
  function Spacing(halfUnits: seq<nat>): (r: string)
    ensures halfUnits == [] <==> r == ""
  {
    Join(Lengths(halfUnits), ' ')
  }

  function Lengths(halfUnits: seq<nat>): (r: seq<string>)
    ensures |r| == |halfUnits|
    ensures forall i :: 0 <= i < |r| ==> r[i] == Length(halfUnits[i])
  {
    if halfUnits == [] then [] else [Length(halfUnits[0])] + Lengths(halfUnits[1..])
  }

  /** The first position of `c` in `s`. */
  function IndexOf(s: string, c: char): (r: Option<nat>)
    ensures r.None? <==> c !in s
    ensures r.Some? ==> r.value < |s| && s[r.value] == c && c !in s[..r.value]
  {
    if s == [] then None
    else if s[0] == c then Some(0)
    else match IndexOf(s[1..], c)
      case None => None
      case Some(i) => assert s[..i + 1] == [s[0]] + s[1..][..i]; Some(i + 1)
  }

  /** `s.split(sep)`: the pieces between separators; a string without one is a single piece. */
  function Split(s: string, sep: char): (r: seq<string>)
    ensures |r| >= 1
    decreases |s|
  {
    match IndexOf(s, sep)
    case None => [s]
    case Some(i) => [s[..i]] + Split(s[i + 1..], sep)
  }

  /** Splitting a join of pieces that do not contain the separator gives the pieces back. */
  lemma {:induction false} SplitJoin(parts: seq<string>, sep: char)
    requires |parts| >= 1
    requires forall i :: 0 <= i < |parts| ==> sep !in parts[i]
    ensures Split(Join(parts, sep), sep) == parts
    decreases |parts|
  {
    if |parts| > 1 {
      var head, rest := parts[0], Join(parts[1..], sep);
      var s := head + [sep] + rest;
      assert s[..|head|] == head && s[|head|] == sep;
      assert IndexOf(s, sep) == Some(|head|);
      assert s[|head| + 1..] == rest;
      SplitJoin(parts[1..], sep);
    }
  }

  /** `spacing` with k arguments has exactly k space-separated parts, each its length. */
  lemma SpacingParts(halfUnits: seq<nat>)
    requires halfUnits != []
    ensures Split(Spacing(halfUnits), ' ') == Lengths(halfUnits)
    ensures |Split(Spacing(halfUnits), ' ')| == |halfUnits|
  {
    SplitJoin(Lengths(halfUnits), ' ');
  }

  /** `spacing(1)`, `spacing(0)`, `spacing(0.5)` and `spacing()`. */
  lemma SpacingExamples()
    ensures Spacing([2]) == "8px"
    ensures Spacing([0]) == "0px"
    ensures Spacing([1]) == "4px"
    ensures Spacing([]) == ""
    ensures Spacing([2, 1]) == "8px 4px"
  {
    assert Length(2) == "8px" && Length(1) == "4px";
    assert [2, 1][1..] == [1];
    assert Lengths([2, 1]) == ["8px", "4px"];
    assert Lengths([2, 1])[1..] == ["4px"];
  }

  /**
   * `mediaQuery(b)`. The width can be read back from the query, so different
   * breakpoints give different queries.
   */
  function MediaQuery(b: Breakpoint): (q: string)
    ensures |q| > 20 && q[..19] == "@media (min-width: " && q[|q| - 1] == ')' && q[19..|q| - 1] == BreakpointWidth(b)
  {
    "@media (min-width: " + BreakpointWidth(b) + ")"
  }

  lemma MediaQueryInjective(a: Breakpoint, b: Breakpoint)
    requires MediaQuery(a) == MediaQuery(b)
    ensures a == b
  {
  }

  /** The breakpoints in pixels, in the table's order. */
  function BreakpointPixels(b: Breakpoint): nat {
    match b
    case Mobile => 576
    case Tablet => 768
    case Desktop => 1024
    case LargeDesktop => 1440
    case UltraWide => 1920
  }

  /** Each breakpoint's CSS length reads as its pixel count, and the widths grow from mobile to ultra-wide. */
  lemma BreakpointsAscend(b: Breakpoint)
    ensures var w := BreakpointWidth(b);
            AllDigits(w[..|w| - 2]) && DigitsValue(w[..|w| - 2]) == BreakpointPixels(b)
    ensures BreakpointPixels(Mobile) < BreakpointPixels(Tablet) < BreakpointPixels(Desktop)
          < BreakpointPixels(LargeDesktop) < BreakpointPixels(UltraWide)
  {
    var digits := BreakpointDigits(b);
    assert BreakpointWidth(b)[..|BreakpointWidth(b)| - 2] == digits;
    ReadDigits(digits);
  }

  /** The value of a literal of up to four digits, one digit at a time. */
  lemma ReadDigits(s: string)
    requires 3 <= |s| <= 4 && AllDigits(s)
    ensures |s| == 3 ==> DigitsValue(s) == 100 * DigitValue(s[0]) + 10 * DigitValue(s[1]) + DigitValue(s[2])
    ensures |s| == 4 ==> DigitsValue(s) == 1000 * DigitValue(s[0]) + 100 * DigitValue(s[1]) + 10 * DigitValue(s[2]) + DigitValue(s[3])
  {
    var p1, p2, p3 := s[..1], s[..2], s[..3];
    assert p1[..0] == [] && p2[..1] == p1 && p3[..2] == p2;
    assert DigitsValue(p1) == DigitValue(s[0]);
    assert DigitsValue(p2) == 10 * DigitValue(s[0]) + DigitValue(s[1]);
    assert DigitsValue(p3) == 100 * DigitValue(s[0]) + 10 * DigitValue(s[1]) + DigitValue(s[2]);
    if |s| == 4 {
      assert s[..3] == p3;
    } else {
      assert s == p3;
    }
  }
}
