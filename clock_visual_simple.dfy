/**
 * The small analogue clock of the selector lists: a white face with a black
 * outline and two black hands, redrawn every minute.
 */
module ClockVisualSimple {
  import opened Wrappers
  import opened FormattedTime
  import opened Canvas
  import ClockVisual

  const DefaultSize: nat := 110
  const RedrawPeriodMs: nat := 60000
  const Face: string := "#ffffff"
  const Ink: string := "#000000"

  /** `drawClock`: clear the whole canvas, the outlined face, then hour and minute hands. */
  function DrawClockOps(width: nat, height: nat, wc: WallClock): (r: seq<CanvasOp>)
    requires ValidClock(wc)
  {
    [ClearRect(width, height), FillFace(Face, Some(Ink)),
     Hand(ClockVisual.HourAngle(wc), Ink), Hand(ClockVisual.MinuteAngle(wc), Ink)]
  }

  /**
   * Every drawing clears first, and its colours do not depend on the time
   * or the zone: two drawings of the same canvas differ only in the hand angles.
   */
  lemma DrawingVariesOnlyInHands(width: nat, height: nat, a: WallClock, b: WallClock)
    requires ValidClock(a) && ValidClock(b)
    ensures DrawClockOps(width, height, a)[0] == ClearRect(width, height)
    ensures DrawClockOps(width, height, a)[..2] == DrawClockOps(width, height, b)[..2]
    ensures forall i :: 2 <= i < 4 ==> DrawClockOps(width, height, a)[i].Hand? && DrawClockOps(width, height, a)[i].color == Ink
    ensures ClockVisual.HourAngle(a) == ClockVisual.HourAngle(b) && a.minute == b.minute ==>
      DrawClockOps(width, height, a) == DrawClockOps(width, height, b)
  {
  }

  /** The canvas of one small clock. */
  class SimpleClockCanvas {
    const size: nat
    var width: nat
    var height: nat
    var interval: Option<nat>
    var events: seq<CanvasOp>

    /** `size` is an optional prop: 110 when absent. */
    constructor (size: Option<nat>)
      ensures size.None? ==> this.size == DefaultSize
      ensures size.Some? ==> this.size == size.value
      ensures width == InitialWidth && height == InitialHeight && interval == None && events == []
    {
      this.size := size.GetOr(DefaultSize);
      width := InitialWidth;
      height := InitialHeight;
      interval := None;
      events := [];
    }

    method DrawClock(wc: WallClock)
      requires ValidClock(wc)
      modifies this
      ensures events == old(events) + DrawClockOps(width, height, wc)
      ensures width == old(width) && height == old(height) && interval == old(interval)
    {
      events := events + DrawClockOps(width, height, wc);
    }

    /** The effect: without a 2D context nothing happens; otherwise size, draw once, redraw every minute. */
    method Mount(hasContext: bool, wc: WallClock)
      requires ValidClock(wc)
      modifies this
      ensures !hasContext ==> width == old(width) && height == old(height) && interval == old(interval) && events == old(events)
      ensures hasContext ==> (width == size && height == size && interval == Some(RedrawPeriodMs)
                              && events == old(events) + [Resize(size, size)] + DrawClockOps(size, size, wc) + [StartInterval(RedrawPeriodMs)])
    {
      if !hasContext {
        return;
      }
      width := size;
      height := size;
      events := events + [Resize(size, size)];
      DrawClock(wc);
      interval := Some(RedrawPeriodMs);
      events := events + [StartInterval(RedrawPeriodMs)];
    }

    /** One firing of the minute interval. */
    method RedrawTick(wc: WallClock)
      requires ValidClock(wc)
      modifies this
      ensures interval.None? ==> events == old(events)
      ensures interval.Some? ==> events == old(events) + DrawClockOps(width, height, wc)
      ensures width == old(width) && height == old(height) && interval == old(interval)
    {
      if interval.Some? {
        DrawClock(wc);
      }
    }

    /** The effect's cleanup, present only after a mount that found a context. */
    method Teardown()
      modifies this
      ensures old(interval).Some? ==> (width == 0 && height == 0 && interval == None
                                       && events == old(events) + [ClearRect(old(width), old(height)), Resize(0, 0), StopInterval])
      ensures old(interval).None? ==> width == old(width) && height == old(height) && interval == None && events == old(events)
    {
      if interval.Some? {
        events := events + [ClearRect(width, height), Resize(0, 0), StopInterval];
        width := 0;
        height := 0;
        interval := None;
      }
    }
  }
}
