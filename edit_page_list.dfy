/**
 * The card carousel of the edit page on wide screens: a search box, four
 * cards per page and arrows, over options searched by label or region.
 */
module EditPageList {
  import opened Wrappers
  import opened Numbers
  import opened Seqs
  import opened TimezoneTypes
  import opened TimezoneTable
  import opened Pagination
  import CitySearch

  const PerPage: nat := 4
  const NoDataText: string := "No timezone data available"
  const NoResultsText: string := "No search results"

  /**
   * What the list renders: nothing at all because a TypeError was thrown,
   * the no-data notice, or one page of cards with its arrows.
   */
  datatype ListView =
    | Crashed
    | NoData
    | Carousel(items: seq<Timezone>, leftArrow: bool, rightArrow: bool)

  /** The notice text a view shows, if any. */
  function Notice(v: ListView): (r: Option<string>)
    ensures r.Some? <==> v.NoData? || (v.Carousel? && v.items == [])
  {
    match v
    case Crashed => None
    case NoData => Some(NoDataText)
    case Carousel(items, _, _) => if items == [] then Some(NoResultsText) else None
  }

  /** One page of cards and its arrows, from the filtered list. */
  function PageView(filtered: seq<Timezone>, page: int): (v: ListView)
    ensures v.Carousel? && |v.items| <= PerPage
    ensures v.leftArrow <==> page != 0 && v.items != []
    ensures v.rightArrow <==> page != TotalPages(|filtered|, PerPage) - 1 && v.items != []
  {
    var items := Page(filtered, page, PerPage);
    Carousel(items, page != 0 && items != [], page != TotalPages(|filtered|, PerPage) - 1 && items != [])
  }

  /**
   * The list as written. `options` is None when the page passes no options
   * (it does not), where `options.filter` throws; the filter itself throws
   * on any option without a region; an empty option list shows the no-data notice.
   */
  function View(options: Option<seq<Timezone>>, search: string, page: int): (v: ListView)
    ensures options.None? ==> v.Crashed?
    ensures options.Some? ==> (v.Crashed? <==> exists i :: 0 <= i < |options.value| && options.value[i].region.None?)
    ensures options.Some? && options.value == [] ==> v == NoData
  {
    match options
    case None => Crashed
    case Some(opts) =>
      match CitySearch.FilterByLabelOrRegion(opts, search)
      case None => Crashed
      case Some(filtered) => if |opts| == 0 then NoData else PageView(filtered, page)
  }

  /** How the edit page renders the list: without the `options` prop. */
  const PassedOptions: Option<seq<Timezone>> := None

  /** As written the wide-screen list never shows: it throws whatever the search and page. */
  lemma ListAlwaysCrashes(search: string, page: int)
    ensures View(PassedOptions, search, page) == Crashed
    ensures View(Some(TimezoneOptions), search, page) == Crashed
  {
    CitySearch.TableCrashesLabelOrRegion(search);
  }

  /** The list as evidently meant: given the table, with a missing region read as ''. */
  function ViewFixed(options: seq<Timezone>, search: string, page: int): (v: ListView)
    ensures options == [] <==> v == NoData
    ensures !v.Crashed?
  {
    if |options| == 0 then NoData else PageView(CitySearch.FilterByLabelOrRegionFixed(options, search), page)
  }

  /** Where every option has a region the corrected list renders what the written one does. */
  lemma FixedAgreesWhereRegionsExist(options: seq<Timezone>, search: string, page: int)
    requires forall i :: 0 <= i < |options| ==> options[i].region.Some?
    ensures View(Some(options), search, page) == ViewFixed(options, search, page)
  {
    CitySearch.FixedAgreesWhereRegionsExist(options, search);
  }

  /** With the table and no search, the first page shows its first four cities and only a right arrow. */
  lemma FixedFirstPage()
    ensures ViewFixed(TimezoneOptions, "", 0) == Carousel(TimezoneOptions[..4], false, true)
  {
    TableSize();
    CitySearch.FixedEmptySearchKeepsAll(TimezoneOptions);
    assert TotalPages(39, PerPage) == 10;
  }

  /** Any page index that is a page of the filtered list shows cards; any other shows 'No search results'. */
  lemma FixedPageShowsCards(options: seq<Timezone>, search: string, page: nat)
    requires options != []
    ensures var filtered := CitySearch.FilterByLabelOrRegionFixed(options, search);
            ViewFixed(options, search, page).items != [] <==> page < TotalPages(|filtered|, PerPage)
  {
    PageNonEmptyIffInRange(CitySearch.FilterByLabelOrRegionFixed(options, search), page, PerPage);
  }

  /**
   * The list's state: the search text and the page index of its
   * `usePagination`. Its handlers act over the corrected filter, since as
   * written the list throws before any of them can run.
   */
  class EditListState {
    const options: seq<Timezone>
    var search: string
    var currentPage: int

    constructor (options: seq<Timezone>)
      ensures this.options == options && search == "" && currentPage == 0
    {
      this.options := options;
      search := "";
      currentPage := 0;
    }

    function Filtered(): seq<Timezone>
      reads this
    {
      CitySearch.FilterByLabelOrRegionFixed(options, search)
    }

    function Render(): ListView
      reads this
    {
      ViewFixed(options, search, currentPage)
    }

    /** Typing in the search box also returns to the first page. */
    method OnSearchInput(text: string)
      modifies this
      ensures search == text && currentPage == 0
    {
      search := text;
      currentPage := 0;
    }

    /** A card click hands the option on, then returns to page 0 with an empty search. */
    method OnCardClick(option: Timezone) returns (forwarded: Timezone)
      modifies this
      ensures forwarded == option
      ensures currentPage == 0 && search == ""
    {
      forwarded := option;
      currentPage := 0;
      search := "";
    }

    /**
     * `handleAllCitiesClick`: the all-cities route for the selected clock,
     * its label (URI-encoded, which the router decodes again) and its index.
     */
    method OnAllCitiesClick(selectedClock: Timezone, selectedIndex: nat) returns (currentCity: string, id: string)
      ensures currentCity == selectedClock.city
      ensures JsNumber(id) == Some(selectedIndex)
    {
      currentCity := selectedClock.city;
      id := NatToString(selectedIndex);
      JsNumberOfNatToString(selectedIndex);
    }

    /** The effect that runs when the selected clock changes. */
    method OnSelectedClockChange()
      modifies this
      ensures currentPage == 0 && search == ""
    {
      currentPage := 0;
      search := "";
    }

    /** The right arrow: `usePagination`'s `handleNext`. */
    method HandleNext()
      modifies this
      ensures currentPage == NextPage(old(currentPage), TotalPages(|Filtered()|, PerPage))
      ensures search == old(search)
    {
      var totalPages: int := TotalPages(|Filtered()|, PerPage);
      currentPage := if currentPage + 1 < totalPages - 1 then currentPage + 1 else totalPages - 1;
    }

    /** The left arrow: `usePagination`'s `handlePrev`. */
    method HandlePrev()
      modifies this
      ensures currentPage == PrevPage(old(currentPage))
      ensures search == old(search)
    {
      currentPage := if currentPage - 1 > 0 then currentPage - 1 else 0;
    }
  }

  /** After a reset the list shows its first page with no left arrow. */
  lemma ResetShowsFirstPage(options: seq<Timezone>)
    requires options != []
    ensures ViewFixed(options, "", 0) == PageView(options, 0)
    ensures !ViewFixed(options, "", 0).leftArrow
  {
    CitySearch.FixedEmptySearchKeepsAll(options);
  }
}
