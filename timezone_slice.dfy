/** The store slice that holds the clocks shown on the main page. */
module TimezoneSlice {
  import opened Wrappers
  import opened TimezoneTypes
  import opened TimezoneTable
  import Seqs

  /** The clock used when the viewer's zone is not in the table. */
  const LocalFallback: Timezone := Timezone("Local", None, "local", 0.0, 0.0)

  /** The test `option.timezone === zone`. */
  function HasZone(zone: string): Timezone -> bool {
    (t: Timezone) => t.timezone == zone
  }

  /**
   * The first clock: the first entry of `table` whose zone is the viewer's
   * zone, or the 'Local' fallback when no entry has that zone.
   */
  function LocalClock(table: seq<Timezone>, localZone: string): (r: Timezone)
    requires forall i :: 0 <= i < |table| ==> table[i] != LocalFallback
    ensures r == LocalFallback <==> forall i :: 0 <= i < |table| ==> table[i].timezone != localZone
    ensures r != LocalFallback ==>
      exists i :: 0 <= i < |table| && table[i] == r && r.timezone == localZone &&
        forall j :: 0 <= j < i ==> table[j].timezone != localZone
  {
    match Seqs.Find(table, HasZone(localZone))
    case Some(t) => t
    case None => LocalFallback
  }

  /** No entry of the table is the fallback clock, whose label is 'Local'. */
  lemma TableHasNoFallback()
    ensures forall i :: 0 <= i < |TimezoneOptions| ==> TimezoneOptions[i] != LocalFallback
  {
    forall i | 0 <= i < |TimezoneOptions| ensures TimezoneOptions[i] != LocalFallback {
      EntryFactsAll(i);
      assert SignatureIndex(Signature("Local")) == -1;
    }
  }

  /** The clocks the store starts with: the local clock, then New York. */
  function InitialClocks(localZone: string): (r: seq<Timezone>)
    ensures |r| == 2
    ensures r[0] == LocalClock(TimezoneOptions, localZone)
    ensures r[1] == TimezoneOptions[0] && r[1].city == "New York"
  {
    FirstEntryIsNewYork();
    TableHasNoFallback();
    [LocalClock(TimezoneOptions, localZone), Timezone("New York", None, "America/New_York", 40.7128, -74.006)]
  }

  /** A viewer in Los Angeles or Las Vegas (one zone) starts with the Los Angeles clock. */
  lemma LocalClockInLosAngelesZone()
    ensures InitialClocks("America/Los_Angeles")[0].city == "Los Angeles"
  {
    LosAngelesZoneShared();
    FirstEntryIsNewYork();
    TableHasNoFallback();
    var z := "America/Los_Angeles";
    assert TimezoneOptions[0].timezone != z && TimezoneOptions[1].timezone == z;
  }

  /** A viewer in a zone the table lacks starts with the fallback clock. */
  lemma LocalClockOutsideTable(localZone: string)
    requires forall i :: 0 <= i < |TimezoneOptions| ==> TimezoneOptions[i].timezone != localZone
    ensures InitialClocks(localZone) == [LocalFallback, TimezoneOptions[0]]
  {
  }

  /**
   * The first clock is flagged as the viewer's own zone exactly when the
   * zone is in the table (or is literally 'local', the fallback's id).
   */
  lemma LocalClockIsCurrent(localZone: string)
    ensures IsCurrentTimezone(InitialClocks(localZone)[0], localZone) <==>
      (exists i :: 0 <= i < |TimezoneOptions| && TimezoneOptions[i].timezone == localZone) || localZone == "local"
  {
    TableHasNoFallback();
  }

  /** The slice state: the clock list, which `updateClock` changes in place. */
  class TimezoneStore {
    var clocks: seq<Timezone>

    constructor (localZone: string)
      ensures clocks == InitialClocks(localZone)
    {
      clocks := InitialClocks(localZone);
    }

    /**
     * `updateClock({index, timezone})`: `state.clocks[index] = timezone`.
     * There is no bounds check; writing one past the end appends, as a
     * JavaScript array does. Indices further out are not modelled.
     */
    method UpdateClock(index: nat, tz: Timezone)
      requires index <= |clocks|
      modifies this
      ensures clocks == if index < old(|clocks|) then old(clocks)[index := tz] else old(clocks) + [tz]
      ensures |clocks| == if index < old(|clocks|) then old(|clocks|) else old(|clocks|) + 1
      ensures clocks[index] == tz
      ensures forall j :: 0 <= j < old(|clocks|) && j != index ==> clocks[j] == old(clocks[j])
    {
      if index < |clocks| {
        clocks := clocks[index := tz];
      } else {
        clocks := clocks + [tz];
      }
    }
  }

  /** The clock list after `updateClock(index, tz)`, for reasoning about repeated updates. */
  function Updated(clocks: seq<Timezone>, index: nat, tz: Timezone): (r: seq<Timezone>)
    requires index <= |clocks|
    ensures |r| == if index < |clocks| then |clocks| else |clocks| + 1
    ensures r[index] == tz
    ensures forall j :: 0 <= j < |clocks| && j != index ==> r[j] == clocks[j]
  {
    if index < |clocks| then clocks[index := tz] else clocks + [tz]
  }

  /** Applying the same update twice is the same as applying it once. */
  lemma UpdatedIdempotent(clocks: seq<Timezone>, index: nat, tz: Timezone)
    requires index <= |clocks|
    ensures Updated(Updated(clocks, index, tz), index, tz) == Updated(clocks, index, tz)
  {
  }
}
