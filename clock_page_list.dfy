/**
 * The card carousel of the main-page editor on wide screens: the table
 * searched by label, four cards per page, and arrows whose handlers are
 * guarded rather than clamped.
 */
module ClockPageList {
  import opened Seqs
  import opened TimezoneTypes
  import opened TimezoneTable
  import opened Pagination
  import CitySearch

  const PerPage: nat := 4

  datatype ListView = Carousel(items: seq<Timezone>, leftArrow: bool, rightArrow: bool)

  function Filtered(search: string): seq<Timezone> {
    CitySearch.FilterByLabel(TimezoneOptions, search)
  }

  function PageCount(search: string): nat {
    TotalPages(|Filtered(search)|, PerPage)
  }

  /** `handleNext`: move on only when not on the last page. */
  function GuardedNext(page: int, totalPages: int): (r: int)
    ensures page < totalPages - 1 ==> r == page + 1
    ensures page >= totalPages - 1 ==> r == page
  {
    if page < totalPages - 1 then page + 1 else page
  }

  /** `handlePrev`: move back only when past the first page. */
  function GuardedPrev(page: int): (r: int)
    ensures page > 0 ==> r == page - 1
    ensures page <= 0 ==> r == page
  {
    if page > 0 then page - 1 else page
  }

  /** On a valid page the guarded moves agree with the clamped moves of `usePagination`. */
  lemma GuardedAgreesWithClamped(page: int, totalPages: int)
    requires 0 <= page < totalPages
    ensures GuardedNext(page, totalPages) == NextPage(page, totalPages)
    ensures GuardedPrev(page) == PrevPage(page)
  {
  }

  /** They differ on an empty list: the guard stays on page 0 where the clamp moves to -1. */
  lemma GuardedDiffersOnEmpty()
    ensures GuardedNext(0, 0) == 0 && NextPage(0, 0) == -1
  {
  }

  /** What the list shows: the cards of the page, a left arrow off page 0, a right arrow off the last page. */
  function View(search: string, page: int): (v: ListView)
    ensures |v.items| <= PerPage
    ensures v.leftArrow <==> page != 0
    ensures v.rightArrow <==> page != PageCount(search) - 1
  {
    Carousel(Page(Filtered(search), page, PerPage), page != 0, page != PageCount(search) - 1)
  }

  /**
   * A search that matches nothing still shows the right arrow on page 0,
   * and a click on it does nothing.
   */
  lemma RightArrowOnEmptyResult(search: string)
    requires Filtered(search) == []
    ensures View(search, 0).items == [] && View(search, 0).rightArrow
    ensures GuardedNext(0, PageCount(search)) == 0
  {
  }

  /** The page index names a page, or is 0 when there is none. */
  predicate PageValid(search: string, page: int) {
    page == 0 || (0 <= page < PageCount(search))
  }

  /** The guarded moves keep the page valid. */
  lemma GuardedMovesKeepValid(search: string, page: int)
    requires PageValid(search, page)
    ensures PageValid(search, GuardedNext(page, PageCount(search)))
    ensures PageValid(search, GuardedPrev(page))
  {
  }

  /** On a valid page with results the cards are there; past the pages there are none. */
  lemma ValidPageShowsCards(search: string, page: nat)
    ensures View(search, page).items != [] <==> page < PageCount(search)
  {
    PageNonEmptyIffInRange(Filtered(search), page, PerPage);
  }

  /** The list's state: its search text and its page index. */
  class ClockListState {
    var search: string
    var currentPage: int

    predicate Valid()
      reads this
    {
      PageValid(search, currentPage)
    }

    function Render(): ListView
      reads this
    {
      View(search, currentPage)
    }

    constructor ()
      ensures Valid() && search == "" && currentPage == 0
    {
      search := "";
      currentPage := 0;
    }

    method HandleNext()
      requires Valid()
      modifies this
      ensures Valid()
      ensures currentPage == GuardedNext(old(currentPage), PageCount(search)) && search == old(search)
    {
      if currentPage < PageCount(search) - 1 {
        currentPage := currentPage + 1;
      }
    }

    method HandlePrev()
      requires Valid()
      modifies this
      ensures Valid()
      ensures currentPage == GuardedPrev(old(currentPage)) && search == old(search)
    {
      if currentPage > 0 {
        currentPage := currentPage - 1;
      }
    }

    /** Typing in the search box returns to the first page. */
    method OnSearchInput(text: string)
      modifies this
      ensures Valid() && search == text && currentPage == 0
    {
      search := text;
      currentPage := 0;
    }

    /** A card click hands the option on, then returns to page 0 with an empty search. */
    method OnCardClick(option: Timezone) returns (forwarded: Timezone)
      modifies this
      ensures Valid() && forwarded == option && currentPage == 0 && search == ""
    {
      forwarded := option;
      currentPage := 0;
      search := "";
    }

    /** The effect that runs when the selected clock changes. */
    method OnSelectedClockChange()
      modifies this
      ensures Valid() && currentPage == 0 && search == ""
    {
      currentPage := 0;
      search := "";
    }
  }
}
