/**
 * The all-cities page: the city of the route with its time, and every city
 * of the table as a card; a card replaces the route's clock in the store.
 */
module AllCities {
  import opened Wrappers
  import opened Numbers
  import opened Seqs
  import opened TimezoneTypes
  import opened TimezoneTable
  import opened TimezoneSlice
  import opened FormattedTime
  import CitySearch
  import EditPage

  const NoResultsText: string := "No search results"

  function HasLabel(city: string): Timezone -> bool {
    (t: Timezone) => t.city == city
  }

  /** `clocks.find(clock => clock.label === currentCity) ?? TIMEZONE_OPTIONS[0]`. */
  function SelectedCity(clocks: seq<Timezone>, currentCity: string): (r: Timezone)
    ensures (exists i :: 0 <= i < |clocks| && clocks[i].city == currentCity) ==>
      exists i :: 0 <= i < |clocks| && clocks[i] == r && r.city == currentCity &&
        forall j :: 0 <= j < i ==> clocks[j].city != currentCity
    ensures (forall i :: 0 <= i < |clocks| ==> clocks[i].city != currentCity) ==> r == TimezoneOptions[0]
  {
    match Find(clocks, HasLabel(currentCity))
    case Some(t) => t
    case None => TableSize(); TimezoneOptions[0]
  }

  /** A route city that is none of the clocks shows New York. */
  lemma UnknownCityShowsNewYork(clocks: seq<Timezone>, currentCity: string)
    requires forall i :: 0 <= i < |clocks| ==> clocks[i].city != currentCity
    ensures SelectedCity(clocks, currentCity).city == "New York"
  {
    FirstEntryIsNewYork();
  }

  /** The cards on screen. */
  function Cards(search: string): (r: seq<Timezone>)
    ensures |r| <= |TimezoneOptions|
    ensures forall t :: t in r <==> t in TimezoneOptions && CitySearch.LabelMatches(search, t)
  {
    CitySearch.FilterByLabel(TimezoneOptions, search)
  }

  function Notice(search: string): (r: Option<string>)
    ensures r.Some? <==> Cards(search) == []
  {
    if Cards(search) != [] then None else Some(NoResultsText)
  }

  /** With no search every city of the table has a card, so there is no notice. */
  lemma EmptySearchShowsAllCities()
    ensures Cards("") == TimezoneOptions && Notice("").None?
  {
    CitySearch.EmptySearchKeepsAll(TimezoneOptions);
    TableSize();
  }

  /** The slot a card click writes is the one the edit page selects for the same route `id`. */
  lemma SameSlotAsEditPage(id: string)
    requires id != "" && AllDigits(id)
    ensures JsNumber(id) == Some(EditPage.InitialIndex(Some(id)))
  {
  }

  /**
   * The edit list's 'All cities' button opens this page with the selected
   * clock's label and index as `currentCity` and `id`. The page then shows
   * that clock, unless an earlier clock has the same label, and a card
   * click writes the slot the button came from.
   */
  lemma OpenedFromEditList(clocks: seq<Timezone>, i: nat)
    requires i < |clocks|
    requires forall j :: 0 <= j < i ==> clocks[j].city != clocks[i].city
    ensures SelectedCity(clocks, clocks[i].city) == clocks[i]
    ensures JsNumber(NatToString(i)) == Some(i)
  {
    var r := SelectedCity(clocks, clocks[i].city);
    var k :| 0 <= k < |clocks| && clocks[k] == r && r.city == clocks[i].city &&
      forall j :: 0 <= j < k ==> clocks[j].city != clocks[i].city;
    assert k == i;
    JsNumberOfNatToString(i);
  }

  /** The page's state: its search text and shown time, with the route parameters and the store. */
  class AllCitiesPage {
    const store: TimezoneStore
    const id: string
    const currentCity: string
    const localZone: string
    var search: string
    var currentTime: string

    constructor (store: TimezoneStore, id: string, currentCity: string, localZone: string)
      ensures this.store == store && this.id == id && this.currentCity == currentCity && this.localZone == localZone
      ensures search == "" && currentTime == ""
    {
      this.store := store;
      this.id := id;
      this.currentCity := currentCity;
      this.localZone := localZone;
      search := "";
      currentTime := "";
    }

    /** One run of `updateTime`, on mount and every 10 s: the shown city's time. */
    method UpdateTime(zoneClock: string -> Option<WallClock>)
      requires forall z :: zoneClock(z).Some? ==> ValidClock(zoneClock(z).value)
      modifies this
      ensures currentTime == GetFormattedTime(SelectedCity(store.clocks, currentCity).timezone, DefaultFormat, zoneClock)
      ensures search == old(search)
    {
      currentTime := GetFormattedTime(SelectedCity(store.clocks, currentCity).timezone, DefaultFormat, zoneClock);
    }

    /** `handlePreviousPage`: back to the edit page of the route's `id`. */
    method PreviousPage() returns (backTo: string)
      ensures backTo == id
    {
      backTo := id;
    }

    /** Whether the location icon shows: the shown city is in the viewer's own zone. */
    predicate ShowsLocationIcon()
      reads this, store
    {
      IsCurrentTimezone(SelectedCity(store.clocks, currentCity), localZone)
    }

    /** Typing sets the search and nothing else. */
    method OnSearchInput(text: string)
      modifies this
      ensures search == text && currentTime == old(currentTime)
    {
      search := text;
    }

    /**
     * `handleOnCardClick`: `updateClock` at `Number(id)` with the card's
     * city, then back to the edit page of `id`, which is returned. A
     * non-numeric `id` is NaN: in a production build the write goes to a
     * non-index property and the list is unchanged.
     */
    method OnCardClick(option: Timezone) returns (backTo: string)
      requires JsNumber(id).Some? ==> JsNumber(id).value <= |store.clocks|
      modifies store
      ensures JsNumber(id).None? ==> store.clocks == old(store.clocks)
      ensures JsNumber(id).Some? ==> store.clocks == Updated(old(store.clocks), JsNumber(id).value, option)
      ensures backTo == id
    {
      var index := JsNumber(id);
      if index.Some? {
        store.UpdateClock(index.value, option);
      }
      backTo := PreviousPage();
    }
  }
}
