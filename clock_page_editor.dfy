/**
 * The editor reached from the main page: the clocks in a row, one selected
 * (from the route or by a click), and a picker that replaces it in the store.
 */
module ClockPageEditor {
  import opened Wrappers
  import opened Numbers
  import opened TimezoneTypes
  import opened TimezoneSlice
  import opened FormattedTime
  import EditPage

  /** The route's `id` selects the clock it names; a missing or non-numeric one selects clock 0. */
  lemma InitialSelection(index: nat, junk: string)
    requires !AllDigits(junk)
    ensures EditPage.InitialIndex(Some(NatToString(index))) == index
    ensures EditPage.InitialIndex(None) == 0 && EditPage.InitialIndex(Some(junk)) == 0
  {
    EditPage.RouteIndexRoundTrip(index);
  }

  /** Exactly the selected clock is drawn and animated as selected. */
  lemma MarksFollowSelection(clocks: seq<Timezone>, index: nat)
    requires index < |clocks|
    ensures EditPage.CountMarked(EditPage.SelectionMarks(|clocks|, index)) == 1
    ensures EditPage.SelectionMarks(|clocks|, index)[index]
  {
    EditPage.OneClockMarked(|clocks|, index);
  }

  class EditorState {
    const store: TimezoneStore
    var selectedIndex: nat
    var currentTime: string

    constructor (id: Option<string>, store: TimezoneStore)
      ensures this.store == store && selectedIndex == EditPage.InitialIndex(id) && currentTime == ""
    {
      this.store := store;
      selectedIndex := EditPage.InitialIndex(id);
      currentTime := "";
    }

    /** One run of `updateTime`; `threw` when there is no selected clock. */
    method UpdateTime(zoneClock: string -> Option<WallClock>) returns (threw: bool)
      requires forall z :: zoneClock(z).Some? ==> ValidClock(zoneClock(z).value)
      modifies this
      ensures threw <==> selectedIndex >= |store.clocks|
      ensures !threw ==> Some(currentTime) == EditPage.SelectedTime(store.clocks, selectedIndex, zoneClock)
      ensures threw ==> currentTime == old(currentTime)
      ensures selectedIndex == old(selectedIndex)
    {
      var shown := EditPage.SelectedTime(store.clocks, selectedIndex, zoneClock);
      threw := shown.None?;
      if shown.Some? {
        currentTime := shown.value;
      }
    }

    /** Clicking clock `index` selects it. */
    method OnClockClick(index: nat)
      modifies this
      ensures selectedIndex == index && currentTime == old(currentTime)
    {
      selectedIndex := index;
    }

    /** `handleTimezoneChange`: `updateClock` at the selected index with the picked option. */
    method OnTimezoneChange(option: Timezone)
      requires selectedIndex <= |store.clocks|
      modifies store
      ensures store.clocks == Updated(old(store.clocks), selectedIndex, option)
      ensures EditPage.SelectedClock(store.clocks, selectedIndex) == Some(option)
    {
      store.UpdateClock(selectedIndex, option);
    }
  }
}
