/**
 * The edit page: the clocks in a row, one of them selected (from the route,
 * by a click, or by a horizontal swipe), and a picker that replaces the
 * selected clock in the store.
 */
module EditPage {
  import opened Wrappers
  import opened Numbers
  import opened TimezoneTypes
  import opened TimezoneSlice
  import opened FormattedTime

  /** A swipe must travel more than this many pixels. */
  const SwipeThreshold: int := 50

  /** `id && !isNaN(Number(id)) ? Number(id) : 0` for the route's `id`. */
  function InitialIndex(id: Option<string>): (r: nat)
    ensures id.None? || id == Some("") ==> r == 0
    ensures id.Some? && !AllDigits(id.value) ==> r == 0
    ensures id.Some? && AllDigits(id.value) ==> r == DigitsValue(id.value)
  {
    match id
    case None => 0
    case Some(s) =>
      if s == "" then 0
      else match JsNumber(s)
        case None => 0
        case Some(n) => n
  }

  /** A route built from an index selects that index. */
  lemma RouteIndexRoundTrip(index: nat)
    ensures InitialIndex(Some(NatToString(index))) == index
  {
    JsNumberOfNatToString(index);
  }

  /** `clocks[selectedIndex]`: None past the end, where JavaScript yields undefined. */
  function SelectedClock(clocks: seq<Timezone>, index: nat): (r: Option<Timezone>)
    ensures r.Some? <==> index < |clocks|
    ensures r.Some? ==> r.value == clocks[index]
  {
    if index < |clocks| then Some(clocks[index]) else None
  }

  /**
   * `updateTime`: the selected clock's time in the default format; None
   * when the index is past the end, where reading `.timezone` of
   * undefined throws.
   */
  function SelectedTime(clocks: seq<Timezone>, index: nat, zoneClock: string -> Option<WallClock>): (r: Option<string>)
    requires forall z :: zoneClock(z).Some? ==> ValidClock(zoneClock(z).value)
    ensures r.None? <==> index >= |clocks|
    ensures r.Some? ==> r.value == GetFormattedTime(clocks[index].timezone, DefaultFormat, zoneClock)
  {
    match SelectedClock(clocks, index)
    case None => None
    case Some(clock) => Some(GetFormattedTime(clock.timezone, DefaultFormat, zoneClock))
  }

  /**
   * `handleTouchEnd`: with a recorded start, a swipe left of more than 50
   * pixels selects the next clock and one right selects the previous, each
   * only when there is one; anything else keeps the index.
   */
  function SwipeTarget(index: nat, count: nat, startX: Option<int>, endX: int): (r: nat)
    ensures startX.None? ==> r == index
    ensures startX.Some? && startX.value - endX > SwipeThreshold && index + 1 < count ==> r == index + 1
    ensures startX.Some? && startX.value - endX < -SwipeThreshold && index > 0 ==> r == index - 1
    ensures (startX.Some? && !(startX.value - endX > SwipeThreshold && index + 1 < count)
             && !(startX.value - endX < -SwipeThreshold && index > 0)) ==> r == index
    ensures r == index || r == index + 1 || r == index - 1
  {
    match startX
    case None => index
    case Some(start) =>
      var distance := start - endX;
      if distance > SwipeThreshold && index + 1 < count then index + 1
      else if distance < -SwipeThreshold && index > 0 then index - 1
      else index
  }

  /** A swipe keeps a valid index valid. */
  lemma SwipeStaysInRange(index: nat, count: nat, startX: Option<int>, endX: int)
    requires index < count
    ensures SwipeTarget(index, count, startX, endX) < count
  {
  }

  /** A short swipe, of at most 50 pixels either way, changes nothing. */
  lemma ShortSwipeKeepsIndex(index: nat, count: nat, startX: int, endX: int)
    requires -SwipeThreshold <= startX - endX <= SwipeThreshold
    ensures SwipeTarget(index, count, Some(startX), endX) == index
  {
  }

  /** A long swipe one way then the other returns to the clock it started from. */
  lemma OppositeSwipesCancel(index: nat, count: nat, x: int, distance: int)
    requires index + 1 < count && distance > SwipeThreshold
    ensures SwipeTarget(SwipeTarget(index, count, Some(x), x - distance), count, Some(x), x + distance) == index
  {
  }

  /** Which clocks are drawn as selected: exactly the one at the index. */
  function SelectionMarks(count: nat, index: nat): (marks: seq<bool>)
    ensures |marks| == count
    ensures forall i :: 0 <= i < count ==> (marks[i] <==> i == index)
  {
    seq(count, i => i == index)
  }

  function CountMarked(marks: seq<bool>): nat {
    if marks == [] then 0 else (if marks[0] then 1 else 0) + CountMarked(marks[1..])
  }

  /** One clock is marked when the index is in range, none otherwise. */
  lemma {:induction false} OneClockMarked(count: nat, index: nat)
    ensures CountMarked(SelectionMarks(count, index)) == if index < count then 1 else 0
  {
    MarksCount(SelectionMarks(count, index), index);
  }

  lemma {:induction false} MarksCount(marks: seq<bool>, index: int)
    requires forall i :: 0 <= i < |marks| ==> (marks[i] <==> i == index)
    ensures CountMarked(marks) == if 0 <= index < |marks| then 1 else 0
    decreases |marks|
  {
    if marks != [] {
      MarksCount(marks[1..], index - 1);
    }
  }

  /** The page's state: the selected index, the touch start, and the store it edits. */
  class EditPageState {
    const store: TimezoneStore
    const localZone: string
    var selectedIndex: nat
    var touchStartX: Option<int>
    var currentTime: string

    constructor (id: Option<string>, store: TimezoneStore, localZone: string)
      ensures this.store == store && this.localZone == localZone
      ensures selectedIndex == InitialIndex(id) && touchStartX == None && currentTime == ""
    {
      this.store := store;
      this.localZone := localZone;
      selectedIndex := InitialIndex(id);
      touchStartX := None;
      currentTime := "";
    }

    /**
     * One run of `updateTime`, on mount and every 10 s: `threw` when there
     * is no selected clock, and then the time is left as it was.
     */
    method UpdateTime(zoneClock: string -> Option<WallClock>) returns (threw: bool)
      requires forall z :: zoneClock(z).Some? ==> ValidClock(zoneClock(z).value)
      modifies this
      ensures threw <==> selectedIndex >= |store.clocks|
      ensures !threw ==> Some(currentTime) == SelectedTime(store.clocks, selectedIndex, zoneClock)
      ensures threw ==> currentTime == old(currentTime)
      ensures selectedIndex == old(selectedIndex) && touchStartX == old(touchStartX)
    {
      var shown := SelectedTime(store.clocks, selectedIndex, zoneClock);
      threw := shown.None?;
      if shown.Some? {
        currentTime := shown.value;
      }
    }

    /** Whether clock `i` shows the location icon. */
    predicate ClockIsCurrent(i: nat)
      reads this, store
      requires i < |store.clocks|
    {
      IsCurrentTimezone(store.clocks[i], localZone)
    }

    method HandleTouchStart(x: int)
      modifies this
      ensures touchStartX == Some(x) && selectedIndex == old(selectedIndex) && currentTime == old(currentTime)
    {
      touchStartX := Some(x);
    }

    /** The swipe decision, after which the touch start is forgotten. */
    method HandleTouchEnd(x: int)
      modifies this
      ensures selectedIndex == SwipeTarget(old(selectedIndex), |store.clocks|, old(touchStartX), x)
      ensures touchStartX == None && currentTime == old(currentTime)
    {
      if touchStartX.Some? {
        var distance := touchStartX.value - x;
        if distance > SwipeThreshold && selectedIndex + 1 < |store.clocks| {
          selectedIndex := selectedIndex + 1;
        } else if distance < -SwipeThreshold && selectedIndex > 0 {
          selectedIndex := selectedIndex - 1;
        }
      }
      touchStartX := None;
    }

    method OnClockClick(index: nat)
      modifies this
      ensures selectedIndex == index && touchStartX == old(touchStartX) && currentTime == old(currentTime)
    {
      selectedIndex := index;
    }

    /** `handleTimezoneChange`: the picked option replaces the selected clock in the store. */
    method OnTimezoneChange(option: Timezone)
      requires selectedIndex <= |store.clocks|
      modifies store
      ensures store.clocks == Updated(old(store.clocks), selectedIndex, option)
      ensures SelectedClock(store.clocks, selectedIndex) == Some(option)
    {
      store.UpdateClock(selectedIndex, option);
    }
  }
}
