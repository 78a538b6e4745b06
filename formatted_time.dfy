/**
 * `getFormattedTime(timezone, format)`: a zone's current wall clock rendered
 * with Luxon format tokens. The time-zone database and the current instant
 * are outside the model: the caller supplies `zoneClock`, the wall clock of
 * each zone now, or None for a zone Luxon cannot resolve.
 */
module FormattedTime {
  import opened Wrappers
  import opened Numbers

  /** A 24-hour wall-clock reading. */
  datatype WallClock = WallClock(hour: nat, minute: nat)

  predicate ValidClock(wc: WallClock) {
    wc.hour < 24 && wc.minute < 60
  }

  /** The format used when the caller gives none. */
  const DefaultFormat: string := "HH:mm"

  /** `n` as two decimal digits, with a leading zero below 10. */
  function Pad2(n: nat): (r: string)
    requires n < 100
    ensures |r| == 2 && AllDigits(r)
    ensures DigitsValue(r) == n
  {
    var r := [DigitChar(n / 10), DigitChar(n % 10)];
    assert r[..1] == [DigitChar(n / 10)] && r[..1][..0] == [];
    assert DigitsValue(r[..1]) == n / 10;
    r
  }

  /** The length of the run of equal characters that starts `s`: Luxon reads a format as such runs. */
  function RunLength(s: string): (n: nat)
    requires |s| > 0
    ensures 1 <= n <= |s|
    ensures forall i :: 0 <= i < n ==> s[i] == s[0]
    ensures n == |s| || s[n] != s[0]
    decreases |s|
  {
    if |s| == 1 || s[1] != s[0] then 1 else 1 + RunLength(s[1..])
  }

  /**
   * One run of the format: `H` and `m` give the hour and minute,
   * `HH` and `mm` the same padded to two digits; any other run is copied.
   */
  function RenderRun(wc: WallClock, run: string): (r: string)
    requires ValidClock(wc) && |run| > 0
    ensures |r| <= 2 * |run|
    ensures forall i :: 0 <= i < |r| ==> IsDigit(r[i]) || r[i] in run
    ensures run[0] != 'H' && run[0] != 'm' ==> r == run
  {
    SmallNatLength(wc.hour);
    SmallNatLength(wc.minute);
    if run == "HH" then Pad2(wc.hour)
    else if run == "H" then NatToString(wc.hour)
    else if run == "mm" then Pad2(wc.minute)
    else if run == "m" then NatToString(wc.minute)
    else run
  }

  /** Numbers below 100 render in at most two digits. */
  lemma SmallNatLength(n: nat)
    requires n < 100
    ensures |NatToString(n)| <= 2
  {
    if n >= 10 {
      assert NatToString(n / 10) == [DigitChar(n / 10)];
    }
  }

  /** `toFormat(format)` on a valid wall clock. */
  function FormatTime(wc: WallClock, fmt: string): (r: string)
    requires ValidClock(wc)
    ensures forall i :: 0 <= i < |r| ==> IsDigit(r[i]) || r[i] in fmt
    ensures |r| <= 2 * |fmt|
    decreases |fmt|
  {
    if fmt == [] then []
    else
      var n := RunLength(fmt);
      var head := RenderRun(wc, fmt[..n]);
      var tail := FormatTime(wc, fmt[n..]);
      CharactersFromFormat(head, tail, fmt, n);
      head + tail
  }

  /** Pieces rendered from the two parts of a format only hold digits and characters of the format. */
  lemma CharactersFromFormat(head: string, tail: string, fmt: string, n: nat)
    requires n <= |fmt|
    requires forall i :: 0 <= i < |head| ==> IsDigit(head[i]) || head[i] in fmt[..n]
    requires forall i :: 0 <= i < |tail| ==> IsDigit(tail[i]) || tail[i] in fmt[n..]
    ensures forall i :: 0 <= i < |head + tail| ==> IsDigit((head + tail)[i]) || (head + tail)[i] in fmt
  {
    assert fmt == fmt[..n] + fmt[n..];
    forall i | 0 <= i < |head + tail| ensures IsDigit((head + tail)[i]) || (head + tail)[i] in fmt {
      if i < |head| {
        assert (head + tail)[i] == head[i];
      } else {
        assert (head + tail)[i] == tail[i - |head|];
      }
    }
  }

  /**
   * `getFormattedTime`: an empty zone is refused with 'Invalid Timezone';
   * otherwise the zone's wall clock is formatted, and a zone Luxon cannot
   * resolve formats as 'Invalid DateTime'.
   */
  function GetFormattedTime(zone: string, fmt: string, zoneClock: string -> Option<WallClock>): (r: string)
    requires forall z :: zoneClock(z).Some? ==> ValidClock(zoneClock(z).value)
    ensures zone == "" ==> r == "Invalid Timezone"
    ensures zone != "" && zoneClock(zone).None? ==> r == "Invalid DateTime"
    ensures zone != "" && zoneClock(zone).Some? ==> r == FormatTime(zoneClock(zone).value, fmt)
  {
    if zone == "" then "Invalid Timezone"
    else match zoneClock(zone)
      case None => "Invalid DateTime"
      case Some(wc) => FormatTime(wc, fmt)
  }

  /** A format with no `H` or `m` in it is copied unchanged. */
  lemma {:induction false} FormatWithoutTokens(wc: WallClock, fmt: string)
    requires ValidClock(wc)
    requires 'H' !in fmt && 'm' !in fmt
    ensures FormatTime(wc, fmt) == fmt
    decreases |fmt|
  {
    if fmt != [] {
      var n := RunLength(fmt);
      assert fmt == fmt[..n] + fmt[n..];
      assert fmt[..n][0] == fmt[0];
      FormatWithoutTokens(wc, fmt[n..]);
    }
  }

  /** The default format gives two-digit hour, ':' and two-digit minute. */
  lemma DefaultFormatShape(wc: WallClock)
    requires ValidClock(wc)
    ensures FormatTime(wc, DefaultFormat) == Pad2(wc.hour) + ":" + Pad2(wc.minute)
    ensures |FormatTime(wc, DefaultFormat)| == 5 && FormatTime(wc, DefaultFormat)[2] == ':'
  {
    var f := DefaultFormat;
    assert RunLength(f) == 2;
    assert f[..2] == "HH" && f[2..] == ":mm";
    var g := f[2..];
    assert RunLength(g) == 1;
    assert g[..1] == ":" && g[1..] == "mm";
    var h := g[1..];
    assert RunLength(h) == 2;
    assert h[..2] == "mm" && h[2..] == [];
  }

  /** Reading an 'HH:mm' string back into a wall clock; None when it is not one. */
  function ParseHHmm(s: string): (r: Option<WallClock>)
    ensures r.Some? ==> ValidClock(r.value)
    ensures r.Some? ==> |s| == 5 && s[2] == ':'
  {
    if |s| == 5 && s[2] == ':' && AllDigits(s[..2]) && AllDigits(s[3..]) then
      var h := DigitsValue(s[..2]);
      var m := DigitsValue(s[3..]);
      if h < 24 && m < 60 then Some(WallClock(h, m)) else None
    else None
  }

  /** The default rendering reads back as the wall clock it came from. */
  lemma ParseFormatted(wc: WallClock)
    requires ValidClock(wc)
    ensures ParseHHmm(FormatTime(wc, DefaultFormat)) == Some(wc)
  {
    DefaultFormatShape(wc);
    ParsePadded(wc);
  }

  lemma ParsePadded(wc: WallClock)
    requires ValidClock(wc)
    ensures ParseHHmm(Pad2(wc.hour) + ":" + Pad2(wc.minute)) == Some(wc)
  {
    var s := Pad2(wc.hour) + ":" + Pad2(wc.minute);
    assert s[..2] == Pad2(wc.hour);
    assert s[3..] == Pad2(wc.minute);
  }

  /** Every string that parses is the default rendering of what it parses to. */
  lemma FormattedParse(s: string)
    requires ParseHHmm(s).Some?
    ensures FormatTime(ParseHHmm(s).value, DefaultFormat) == s
  {
    DefaultFormatShape(ParseHHmm(s).value);
    PaddedParse(s);
  }

  lemma PaddedParse(s: string)
    requires ParseHHmm(s).Some?
    ensures var wc := ParseHHmm(s).value; s == Pad2(wc.hour) + ":" + Pad2(wc.minute)
  {
    PadDigits(s[..2]);
    PadDigits(s[3..]);
    assert s == s[..2] + ":" + s[3..];
  }

  /** Two digits are the padding of their own value. */
  lemma PadDigits(d: string)
    requires |d| == 2 && AllDigits(d)
    ensures DigitsValue(d) < 100 && Pad2(DigitsValue(d)) == d
  {
    var first := d[..1];
    assert first == [d[0]] && first[..0] == [];
    assert DigitsValue(first) == DigitValue(d[0]);
    assert DigitsValue(d) == DigitsValue(first) * 10 + DigitValue(d[1]);
  }
}
