/**
 * The main page: every clock of the store as a face with its city and its
 * time, refreshed every 10 s; a click opens the editor at that clock.
 */
module ClockPage {
  import opened Wrappers
  import opened Numbers
  import opened Seqs
  import opened TimezoneTypes
  import opened TimezoneSlice
  import opened FormattedTime
  import AuthSlice
  import EditPage

  const RefreshPeriodMs: nat := 10000
  const WideSize: nat := 300
  const MobileSize: nat := 240

  /** One row of `currentTimes`: a clock's label and its formatted time. */
  datatype TimeEntry = TimeEntry(city: string, time: string)

  /** The time shown for a zone, with the formatter's default format. */
  function TimeOf(zone: string, zoneClock: string -> Option<WallClock>): string
    requires forall z :: zoneClock(z).Some? ==> ValidClock(zoneClock(z).value)
  {
    GetFormattedTime(zone, DefaultFormat, zoneClock)
  }

  /** `clocks.map(clock => ({label, time: getFormattedTime(clock.timezone)}))`. */
  function CurrentTimes(clocks: seq<Timezone>, zoneClock: string -> Option<WallClock>): (r: seq<TimeEntry>)
    requires forall z :: zoneClock(z).Some? ==> ValidClock(zoneClock(z).value)
    ensures |r| == |clocks|
    ensures forall i :: 0 <= i < |clocks| ==> r[i] == TimeEntry(clocks[i].city, TimeOf(clocks[i].timezone, zoneClock))
  {
    if clocks == [] then []
    else [TimeEntry(clocks[0].city, TimeOf(clocks[0].timezone, zoneClock))] + CurrentTimes(clocks[1..], zoneClock)
  }

  function HasCity(city: string): TimeEntry -> bool {
    (e: TimeEntry) => e.city == city
  }

  /** `currentTimes.find(t => t.label === clock.label)?.time`. */
  function DisplayedTime(times: seq<TimeEntry>, city: string): (r: Option<string>)
    ensures r.None? <==> forall i :: 0 <= i < |times| ==> times[i].city != city
    ensures r.Some? ==> exists i :: 0 <= i < |times| && times[i].city == city && times[i].time == r.value
                                    && forall j :: 0 <= j < i ==> times[j].city != city
  {
    match Find(times, HasCity(city))
    case None => None
    case Some(e) => Some(e.time)
  }

  function ClockHasCity(city: string): Timezone -> bool {
    (t: Timezone) => t.city == city
  }

  /**
   * The time under clock `i` is that of the first clock with the same
   * label, which may be an earlier clock than `i`.
   */
  lemma DisplayedTimeOfClock(clocks: seq<Timezone>, zoneClock: string -> Option<WallClock>, i: nat)
    requires forall z :: zoneClock(z).Some? ==> ValidClock(zoneClock(z).value)
    requires i < |clocks|
    ensures FindIndex(clocks, ClockHasCity(clocks[i].city)).Some?
    ensures var j := FindIndex(clocks, ClockHasCity(clocks[i].city)).value;
            j <= i && DisplayedTime(CurrentTimes(clocks, zoneClock), clocks[i].city) == Some(TimeOf(clocks[j].timezone, zoneClock))
  {
    var city := clocks[i].city;
    var times := CurrentTimes(clocks, zoneClock);
    assert ClockHasCity(city)(clocks[i]);
    assert HasCity(city)(times[i]);
    var j := FindIndex(clocks, ClockHasCity(city)).value;
    var k := FindIndex(times, HasCity(city)).value;
    assert HasCity(city)(times[j]);
    assert ClockHasCity(city)(clocks[k]);
    assert j == k;
  }

  /** With distinct labels every clock shows its own time. */
  lemma UniqueLabelsShowOwnTimes(clocks: seq<Timezone>, zoneClock: string -> Option<WallClock>, i: nat)
    requires forall z :: zoneClock(z).Some? ==> ValidClock(zoneClock(z).value)
    requires forall a, b :: 0 <= a < b < |clocks| ==> clocks[a].city != clocks[b].city
    requires i < |clocks|
    ensures DisplayedTime(CurrentTimes(clocks, zoneClock), clocks[i].city) == Some(TimeOf(clocks[i].timezone, zoneClock))
  {
    DisplayedTimeOfClock(clocks, zoneClock, i);
  }

  /** The face size: 300 unless on a phone, then 240. */
  function ClockSize(isMobile: bool): (size: nat)
    ensures size == WideSize <==> !isMobile
    ensures size == MobileSize <==> isMobile
  {
    if !isMobile then WideSize else MobileSize
  }

  /** `handleEdit(index)`: the route segment of the editor for that clock. */
  function EditRoute(index: nat): string {
    NatToString(index)
  }

  /** Clicking clock `i` opens the editor with clock `i` selected; the edit icon opens it at clock 0. */
  lemma ClickOpensEditorAtClock(i: nat)
    ensures EditPage.InitialIndex(Some(EditRoute(i))) == i
    ensures EditPage.InitialIndex(Some(EditRoute(0))) == 0
  {
    EditPage.RouteIndexRoundTrip(i);
    EditPage.RouteIndexRoundTrip(0);
  }

  /** The page's state: the time table, with the store it shows and the sign-in slice. */
  class ClockPageState {
    const store: TimezoneStore
    const auth: AuthSlice.AuthStore
    const localZone: string
    var currentTimes: seq<TimeEntry>

    constructor (store: TimezoneStore, auth: AuthSlice.AuthStore, localZone: string, zoneClock: string -> Option<WallClock>)
      requires forall z :: zoneClock(z).Some? ==> ValidClock(zoneClock(z).value)
      ensures this.store == store && this.auth == auth && this.localZone == localZone
      ensures currentTimes == CurrentTimes(store.clocks, zoneClock)
    {
      this.store := store;
      this.auth := auth;
      this.localZone := localZone;
      currentTimes := CurrentTimes(store.clocks, zoneClock);
    }

    /** One run of `updateTimes`, on mount and every 10 s. */
    method RefreshTimes(zoneClock: string -> Option<WallClock>)
      requires forall z :: zoneClock(z).Some? ==> ValidClock(zoneClock(z).value)
      modifies this
      ensures currentTimes == CurrentTimes(store.clocks, zoneClock)
    {
      currentTimes := CurrentTimes(store.clocks, zoneClock);
    }

    /** Whether clock `i` shows the location icon. */
    predicate ClockIsCurrent(i: nat)
      reads this, store
      requires i < |store.clocks|
    {
      IsCurrentTimezone(store.clocks[i], localZone)
    }

    /** A click on clock `i` (or on the edit icon, with 0) gives the editor's route. */
    method HandleEdit(index: nat) returns (route: string)
      ensures route == EditRoute(index)
      ensures EditPage.InitialIndex(Some(route)) == index
    {
      route := NatToString(index);
      EditPage.RouteIndexRoundTrip(index);
    }

    /** The logout button signs the user out. */
    method HandleLogout()
      modifies auth
      ensures !auth.isAuthenticated && auth.redirectMessage == old(auth.redirectMessage)
    {
      auth.LogoutAction();
    }
  }
}
