/**
 * The analogue clock face: hand and tick angles, the day/night test, the
 * colour choices and the canvas lifecycle of the component (mount, repaint
 * every 10 s, teardown).
 */
module ClockVisual {
  import opened Wrappers
  import opened FormattedTime
  import opened Canvas

  /** The size when the caller gives none. */
  const DefaultSize: nat := 240
  /** Repaint period of the hands, and re-check period of day/night. */
  const PaintPeriodMs: nat := 10000
  const DaytimePeriodMs: nat := 60000

  // ---------------------------------------------------------------- angles

  /** `((hours % 12 + minutes / 60) * PI) / 6`, in half-degrees. */
  function HourAngle(wc: WallClock): (a: nat)
    requires ValidClock(wc)
    ensures a < 720
  {
    (wc.hour % 12) * 60 + wc.minute
  }

  /** `(minutes * PI) / 30`, in half-degrees. */
  function MinuteAngle(wc: WallClock): (a: nat)
    requires ValidClock(wc)
    ensures a <= 708 && a % 12 == 0
    ensures a == 0 <==> wc.minute == 0
  {
    12 * wc.minute
  }

  /** Tick `i` sits at `i * PI / 6`, in half-degrees. */
  function TickAngle(i: nat): (a: nat)
    requires i < 12
    ensures a < 720 && a % 60 == 0
  {
    60 * i
  }

  /** Hours `h` and `h + 12` put the hour hand in the same place. */
  lemma HourAngleTwelveHourCycle(h: nat, m: nat)
    requires h < 12 && m < 60
    ensures HourAngle(WallClock(h, m)) == HourAngle(WallClock(h + 12, m))
  {
  }

  /** The hour hand determines the 12-hour time: whole hours and the minute can be read back. */
  lemma HourAngleReadBack(wc: WallClock)
    requires ValidClock(wc)
    ensures HourAngle(wc) / 60 == wc.hour % 12
    ensures HourAngle(wc) % 60 == wc.minute
    ensures MinuteAngle(wc) == 12 * (HourAngle(wc) % 60)
  {
    var a := HourAngle(wc);
    assert a == (wc.hour % 12) * 60 + wc.minute;
  }

  /** Two readings with the same hour angle agree on the 12-hour time. */
  lemma HourAngleInjective(a: WallClock, b: WallClock)
    requires ValidClock(a) && ValidClock(b)
    requires HourAngle(a) == HourAngle(b)
    ensures a.hour % 12 == b.hour % 12 && a.minute == b.minute
  {
    HourAngleReadBack(a);
    HourAngleReadBack(b);
  }

  /** A quarter turn in half-degrees: how far 3 o'clock is from 12 o'clock. */
  const QuarterTurn: nat := 180

  /**
   * Where tick `i` points, measured as the hands are, clockwise from
   * 12 o'clock. The tick loop projects `i * PI / 6` directly, so its angle
   * counts from 3 o'clock, while `drawHand` subtracts `PI / 2` first.
   */
  function TickDirection(i: nat): (a: nat)
    requires i < 12
    ensures a < 720 && a % 60 == 0
    ensures i < 9 ==> a == TickAngle(i) + QuarterTurn
    ensures i >= 9 ==> a == TickAngle(i - 9)
  {
    (TickAngle(i) + QuarterTurn) % 720
  }

  /**
   * On the hour the hour hand lies on a tick: the one drawn by iteration
   * `(h + 9) % 12` of the loop, since tick 0 is drawn at 3 o'clock. It never
   * lies on the tick of iteration `h % 12`, which is a quarter turn further on.
   */
  lemma HourHandOnTick(h: nat)
    requires h < 24
    ensures HourAngle(WallClock(h, 0)) == TickDirection((h + 9) % 12)
    ensures HourAngle(WallClock(h, 0)) != TickDirection(h % 12)
  {
    var k := h % 12;
    assert (h + 9) % 12 == (k + 9) % 12;
    if k < 3 {
      assert (k + 9) % 12 == k + 9;
    } else {
      assert (k + 9) % 12 == k - 3;
    }
  }

  // ---------------------------------------------------------------- day and night

  /**
   * `now >= sunrise && now <= sunset` on instants; a solar time that is
   * missing (an Invalid Date) makes the comparison false, so the face is dark.
   */
  predicate IsDaytime(now: int, sunrise: Option<int>, sunset: Option<int>) {
    sunrise.Some? && sunset.Some? && sunrise.value <= now <= sunset.value
  }

  /** Both ends count as daytime, and nothing outside them does. */
  lemma DaytimeBounds(now: int, rise: int, dusk: int)
    requires rise <= dusk
    ensures IsDaytime(rise, Some(rise), Some(dusk)) && IsDaytime(dusk, Some(rise), Some(dusk))
    ensures now < rise || now > dusk ==> !IsDaytime(now, Some(rise), Some(dusk))
  {
  }

  /** Without a sunrise or a sunset it is never daytime. */
  lemma MissingSunTimeIsNight(now: int, sunrise: Option<int>, sunset: Option<int>)
    requires sunrise.None? || sunset.None?
    ensures !IsDaytime(now, sunrise, sunset)
  {
  }

  /** Daytime is an interval: between two daytime instants every instant is daytime. */
  lemma DaytimeConvex(t1: int, t: int, t2: int, sunrise: Option<int>, sunset: Option<int>)
    requires t1 <= t <= t2
    requires IsDaytime(t1, sunrise, sunset) && IsDaytime(t2, sunrise, sunset)
    ensures IsDaytime(t, sunrise, sunset)
  {
  }

  // ---------------------------------------------------------------- colours

  const DayFace: string := "#ffffff"
  const NightFace: string := "#333333"
  const OwnZoneHand: string := "#0C8AD6"
  const OtherZoneHand: string := "#D81E5B"

  function FaceColor(isDaytime: bool): (c: string)
    ensures c == DayFace <==> isDaytime
    ensures c == NightFace <==> !isDaytime
  {
    if isDaytime then DayFace else NightFace
  }

  function HandColor(isCurrentTimezone: bool): (c: string)
    ensures c == OwnZoneHand <==> isCurrentTimezone
    ensures c == OtherZoneHand <==> !isCurrentTimezone
  {
    if isCurrentTimezone then OwnZoneHand else OtherZoneHand
  }

  // ---------------------------------------------------------------- paint logs

  /** The number of hour marks on the face. */
  const HourMarks: nat := 12

  /** The first `n` ticks, tick `i` at its angle. */
  function TickOps(n: nat): (r: seq<CanvasOp>)
    requires n <= HourMarks
    ensures |r| == n
  {
    if n == 0 then [] else TickOps(n - 1) + [Tick(TickAngle(n - 1))]
  }

  /** Tick `i` of the log is drawn at hour mark `i`. */
  lemma {:induction false} TickOpsAngles(n: nat)
    requires n <= HourMarks
    ensures forall i :: 0 <= i < n ==> TickOps(n)[i] == Tick(TickAngle(i))
  {
    if n > 0 {
      TickOpsAngles(n - 1);
    }
  }

  predicate IsTick(op: CanvasOp) {
    op.Tick?
  }

  predicate IsHand(op: CanvasOp) {
    op.Hand?
  }

  /** `drawStaticPart`: the face, the twelve ticks, then the city label. */
  function StaticOps(city: string, isDaytime: bool): (r: seq<CanvasOp>)
  {
    [FillFace(FaceColor(isDaytime), None)] + TickOps(HourMarks) + [Label(city)]
  }

  /** `drawDynamicPart`: clear the canvas, redraw the static part, the hour and minute hands, the hub. */
  function DynamicOps(width: nat, height: nat, city: string, isDaytime: bool, isCurrentTimezone: bool, wc: WallClock): (r: seq<CanvasOp>)
    requires ValidClock(wc)
  {
    [ClearRect(width, height)] + StaticOps(city, isDaytime)
      + [Hand(HourAngle(wc), HandColor(isCurrentTimezone)), Hand(MinuteAngle(wc), HandColor(isCurrentTimezone)), Hub]
  }

  /** The static part holds exactly twelve ticks, at the hour marks, between the face and the label. */
  lemma StaticOpsShape(city: string, isDaytime: bool)
    ensures |StaticOps(city, isDaytime)| == 14
    ensures StaticOps(city, isDaytime)[0] == FillFace(FaceColor(isDaytime), None)
    ensures forall i :: 1 <= i <= 12 ==> StaticOps(city, isDaytime)[i] == Tick(60 * (i - 1))
    ensures StaticOps(city, isDaytime)[13] == Label(city)
  {
    var face := [FillFace(FaceColor(isDaytime), None)];
    var ticks := TickOps(HourMarks);
    TickOpsAngles(HourMarks);
    forall i | 1 <= i <= 12 ensures StaticOps(city, isDaytime)[i] == Tick(60 * (i - 1)) {
      assert (face + ticks + [Label(city)])[i] == ticks[i - 1];
    }
  }

  /** The static part draws twelve ticks and no hand. */
  lemma StaticOpsCounts(city: string, isDaytime: bool)
    ensures Count(StaticOps(city, isDaytime), IsTick) == 12
    ensures Count(StaticOps(city, isDaytime), IsHand) == 0
  {
    FramedTickCounts(FillFace(FaceColor(isDaytime), None), Label(city), HourMarks);
  }

  /** Ticks between two operations that are neither ticks nor hands. */
  lemma FramedTickCounts(first: CanvasOp, last: CanvasOp, n: nat)
    requires n <= HourMarks
    requires !first.Tick? && !first.Hand? && !last.Tick? && !last.Hand?
    ensures Count([first] + TickOps(n) + [last], IsTick) == n
    ensures Count([first] + TickOps(n) + [last], IsHand) == 0
  {
    var ticks := TickOps(n);
    assert Count([first], IsTick) == 0 && Count([last], IsTick) == 0;
    assert Count([first], IsHand) == 0 && Count([last], IsHand) == 0;
    CountAppend([first] + ticks, [last], IsTick);
    CountAppend([first], ticks, IsTick);
    TickCount(n);
    CountAppend([first] + ticks, [last], IsHand);
    CountAppend([first], ticks, IsHand);
  }

  lemma {:induction false} TickCount(n: nat)
    requires n <= HourMarks
    ensures Count(TickOps(n), IsTick) == n
    ensures Count(TickOps(n), IsHand) == 0
  {
    if n > 0 {
      TickCount(n - 1);
      CountAppend(TickOps(n - 1), [Tick(TickAngle(n - 1))], IsTick);
      CountAppend(TickOps(n - 1), [Tick(TickAngle(n - 1))], IsHand);
    }
  }

  /**
   * Each repaint starts by clearing the whole canvas and draws exactly two
   * hands, hour before minute, both in the same colour.
   */
  lemma DynamicOpsShape(width: nat, height: nat, city: string, isDaytime: bool, isCurrentTimezone: bool, wc: WallClock)
    requires ValidClock(wc)
    ensures var d := DynamicOps(width, height, city, isDaytime, isCurrentTimezone, wc);
      |d| == 18 && d[0] == ClearRect(width, height) && d[1..15] == StaticOps(city, isDaytime)
      && d[15] == Hand(HourAngle(wc), HandColor(isCurrentTimezone))
      && d[16] == Hand(MinuteAngle(wc), HandColor(isCurrentTimezone))
      && d[17] == Hub
      && Count(d, IsHand) == 2
  {
    var d := DynamicOps(width, height, city, isDaytime, isCurrentTimezone, wc);
    StaticOpsShape(city, isDaytime);
    var hands := [Hand(HourAngle(wc), HandColor(isCurrentTimezone)), Hand(MinuteAngle(wc), HandColor(isCurrentTimezone)), Hub];
    assert d == [ClearRect(width, height)] + StaticOps(city, isDaytime) + hands;
    CountAppend([ClearRect(width, height)] + StaticOps(city, isDaytime), hands, IsHand);
    CountAppend([ClearRect(width, height)], StaticOps(city, isDaytime), IsHand);
    StaticOpsCounts(city, isDaytime);
  }

  // ---------------------------------------------------------------- the component

  /**
   * One mounted clock face. The props are constants; `isDaytime` is the
   * component's state; the canvas size, the two intervals and the log of
   * drawing operations are what the effects change.
   */
  class ClockVisualCanvas {
    const size: nat
    const city: string
    const isCurrentTimezone: bool

    var isDaytime: bool
    var width: nat
    var height: nat
    var paintInterval: Option<nat>
    var daytimeInterval: Option<nat>
    var events: seq<CanvasOp>

    /** `size` and `isCurrentTimezone` are optional props: 240 and false when absent. */
    constructor (size: Option<nat>, city: string, isCurrentTimezone: Option<bool>)
      ensures size.None? ==> this.size == DefaultSize
      ensures size.Some? ==> this.size == size.value
      ensures this.city == city
      ensures isCurrentTimezone.None? ==> !this.isCurrentTimezone
      ensures isCurrentTimezone.Some? ==> this.isCurrentTimezone == isCurrentTimezone.value
      ensures isDaytime
      ensures width == InitialWidth && height == InitialHeight
      ensures paintInterval == None && daytimeInterval == None && events == []
    {
      this.size := size.GetOr(DefaultSize);
      this.city := city;
      this.isCurrentTimezone := isCurrentTimezone.GetOr(false);
      isDaytime := true;
      width := InitialWidth;
      height := InitialHeight;
      paintInterval := None;
      daytimeInterval := None;
      events := [];
    }

    /** The day/night effect: classify now, then re-check every minute. */
    method StartDaytimeWatch(now: int, sunrise: Option<int>, sunset: Option<int>)
      modifies this
      ensures isDaytime == IsDaytime(now, sunrise, sunset)
      ensures daytimeInterval == Some(DaytimePeriodMs)
      ensures width == old(width) && height == old(height)
      ensures paintInterval == old(paintInterval) && events == old(events)
    {
      isDaytime := IsDaytime(now, sunrise, sunset);
      daytimeInterval := Some(DaytimePeriodMs);
    }

    /** One run of `updateDaytimeStatus` from the minute interval. */
    method DaytimeTick(now: int, sunrise: Option<int>, sunset: Option<int>)
      requires daytimeInterval.Some?
      modifies this
      ensures isDaytime == IsDaytime(now, sunrise, sunset)
      ensures daytimeInterval == old(daytimeInterval)
      ensures width == old(width) && height == old(height)
      ensures paintInterval == old(paintInterval) && events == old(events)
    {
      isDaytime := IsDaytime(now, sunrise, sunset);
    }

    /** The day/night effect's cleanup. */
    method StopDaytimeWatch()
      modifies this
      ensures daytimeInterval == None
      ensures isDaytime == old(isDaytime) && width == old(width) && height == old(height)
      ensures paintInterval == old(paintInterval) && events == old(events)
    {
      daytimeInterval := None;
    }

    /** `drawStaticPart`, with its loop over the twelve ticks. */
    method DrawStaticPart()
      modifies this
      ensures events == old(events) + StaticOps(city, isDaytime)
      ensures isDaytime == old(isDaytime) && width == old(width) && height == old(height)
      ensures paintInterval == old(paintInterval) && daytimeInterval == old(daytimeInterval)
    {
      var face := [FillFace(FaceColor(isDaytime), None)];
      events := events + face;
      var i := 0;
      while i < HourMarks
        invariant 0 <= i <= HourMarks
        invariant events == old(events) + face + TickOps(i)
        invariant isDaytime == old(isDaytime) && width == old(width) && height == old(height)
        invariant paintInterval == old(paintInterval) && daytimeInterval == old(daytimeInterval)
      {
        assert TickOps(i + 1) == TickOps(i) + [Tick(TickAngle(i))];
        events := events + [Tick(TickAngle(i))];
        i := i + 1;
      }
      events := events + [Label(city)];
      AppendBatches(old(events), face, TickOps(HourMarks), [Label(city)]);
    }

    /** `drawDynamicPart` at wall clock `wc`. */
    method DrawDynamicPart(wc: WallClock)
      requires ValidClock(wc)
      modifies this
      ensures events == old(events) + DynamicOps(width, height, city, isDaytime, isCurrentTimezone, wc)
      ensures isDaytime == old(isDaytime) && width == old(width) && height == old(height)
      ensures paintInterval == old(paintInterval) && daytimeInterval == old(daytimeInterval)
    {
      var clear := [ClearRect(width, height)];
      events := events + clear;
      DrawStaticPart();
      var color := HandColor(isCurrentTimezone);
      var hands := [Hand(HourAngle(wc), color), Hand(MinuteAngle(wc), color), Hub];
      events := events + hands;
      AppendBatches(old(events), clear, StaticOps(city, isDaytime), hands);
    }

    /**
     * The drawing effect. Without a 2D context nothing happens; otherwise
     * the canvas is sized, painted, and the 10 s repaint starts.
     */
    method Mount(hasContext: bool, wc: WallClock)
      requires ValidClock(wc)
      modifies this
      ensures !hasContext ==> width == old(width) && height == old(height) && paintInterval == old(paintInterval) && events == old(events)
      ensures hasContext ==> width == size && height == size && paintInterval == Some(PaintPeriodMs)
      ensures hasContext ==> (events == old(events) + [Resize(size, size)] + StaticOps(city, isDaytime)
                                 + DynamicOps(size, size, city, isDaytime, isCurrentTimezone, wc) + [StartInterval(PaintPeriodMs)])
      ensures isDaytime == old(isDaytime) && daytimeInterval == old(daytimeInterval)
    {
      if !hasContext {
        return;
      }
      width := size;
      height := size;
      events := events + [Resize(size, size)];
      DrawStaticPart();
      DrawDynamicPart(wc);
      paintInterval := Some(PaintPeriodMs);
      events := events + [StartInterval(PaintPeriodMs)];
    }

    /** One firing of the 10 s interval: repaint only while it is running. */
    method PaintTick(wc: WallClock)
      requires ValidClock(wc)
      modifies this
      ensures paintInterval.None? ==> events == old(events)
      ensures paintInterval.Some? ==> events == old(events) + DynamicOps(width, height, city, isDaytime, isCurrentTimezone, wc)
      ensures isDaytime == old(isDaytime) && width == old(width) && height == old(height)
      ensures paintInterval == old(paintInterval) && daytimeInterval == old(daytimeInterval)
    {
      if paintInterval.Some? {
        DrawDynamicPart(wc);
      }
    }

    /**
     * The drawing effect's cleanup, which exists only after a mount that
     * found a context: clear, release the canvas memory, stop the repaint.
     */
    method Teardown()
      modifies this
      ensures old(paintInterval).Some? ==> (width == 0 && height == 0 && paintInterval == None
                                            && events == old(events) + [ClearRect(old(width), old(height)), Resize(0, 0), StopInterval])
      ensures old(paintInterval).None? ==> width == old(width) && height == old(height) && paintInterval == None && events == old(events)
      ensures isDaytime == old(isDaytime) && daytimeInterval == old(daytimeInterval)
    {
      if paintInterval.Some? {
        events := events + [ClearRect(width, height), Resize(0, 0), StopInterval];
        width := 0;
        height := 0;
        paintInterval := None;
      }
    }
  }
}
