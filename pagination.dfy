/** The paging hook shared by the clock lists: a zero-based page index kept in range. */
module Pagination {
  import Seqs

  /**
   * `Math.ceil(totalItems / itemsPerPage)`: the fewest pages of `perPage`
   * items that hold `totalItems` items.
   */
  function TotalPages(totalItems: nat, perPage: nat): (r: nat)
    requires perPage > 0
    ensures r * perPage >= totalItems
    ensures r == 0 || (r - 1) * perPage < totalItems
    ensures r == 0 <==> totalItems == 0
  {
    var q := (totalItems + perPage - 1) / perPage;
    var m := (totalItems + perPage - 1) % perPage;
    assert q * perPage + m == totalItems + perPage - 1;
    assert q * perPage >= totalItems by {
      assert m < perPage;
    }
    assert q == 0 || (q - 1) * perPage < totalItems by {
      if q > 0 {
        assert (q - 1) * perPage == q * perPage - perPage;
      }
    }
    q
  }

  /** `handleNext`: one page on, but never past the last page. */
  function NextPage(page: int, totalPages: int): (r: int)
    ensures r <= page + 1 && r <= totalPages - 1
    ensures r == page + 1 || r == totalPages - 1
  {
    if page + 1 < totalPages - 1 then page + 1 else totalPages - 1
  }

  /** `handlePrev`: one page back, but never before the first page. */
  function PrevPage(page: int): (r: int)
    ensures r >= page - 1 && r >= 0
    ensures r == page - 1 || r == 0
  {
    if page - 1 > 0 then page - 1 else 0
  }

  /** A page index that names one of the pages. */
  predicate InRange(page: int, totalPages: int) {
    0 <= page < totalPages
  }

  /** Both moves keep a valid page index valid. */
  lemma MovesStayInRange(page: int, totalPages: int)
    requires InRange(page, totalPages)
    ensures InRange(NextPage(page, totalPages), totalPages)
    ensures InRange(PrevPage(page), totalPages)
  {
  }

  /** Away from the ends, going back undoes going on and going on undoes going back. */
  lemma NextPrevInverse(page: int, totalPages: int)
    requires 0 <= page < totalPages - 1
    ensures PrevPage(NextPage(page, totalPages)) == page
    ensures 0 < page ==> NextPage(PrevPage(page), totalPages) == page
  {
  }

  /** At the last page, `handleNext` stays; at the first, `handlePrev` stays. */
  lemma EndsAreFixed(totalPages: int)
    requires totalPages > 0
    ensures NextPage(totalPages - 1, totalPages) == totalPages - 1
    ensures PrevPage(0) == 0
  {
  }

  /** With no items there is no page, and `handleNext` from page 0 yields index -1. */
  lemma NextOnEmptyList(perPage: nat)
    requires perPage > 0
    ensures TotalPages(0, perPage) == 0
    ensures NextPage(0, TotalPages(0, perPage)) == -1
  {
  }

  /** Page `p` of a list holds something exactly when `p` is one of its pages. */
  lemma PageNonEmptyIffInRange<T>(s: seq<T>, p: nat, perPage: nat)
    requires perPage > 0
    ensures Seqs.Page(s, p, perPage) != [] <==> p < TotalPages(|s|, perPage)
  {
    var total := TotalPages(|s|, perPage);
    if p < total {
      assert p * perPage <= (total - 1) * perPage by {
        MulMonotone(p, total - 1, perPage);
      }
    } else {
      assert p * perPage >= total * perPage by {
        MulMonotone(total, p, perPage);
      }
    }
  }

  lemma MulMonotone(a: nat, b: nat, k: nat)
    requires a <= b
    ensures a * k <= b * k
  {
  }

  /** The hook's state: the current page index, starting at 0. */
  class PaginationState {
    var currentPage: int

    constructor ()
      ensures currentPage == 0
    {
      currentPage := 0;
    }

    /** `handleNext`, with the item count and page size of the current render. */
    method HandleNext(totalItems: nat, perPage: nat)
      requires perPage > 0
      modifies this
      ensures currentPage == NextPage(old(currentPage), TotalPages(totalItems, perPage))
    {
      var totalPages: int := TotalPages(totalItems, perPage);
      currentPage := if currentPage + 1 < totalPages - 1 then currentPage + 1 else totalPages - 1;
    }

    method HandlePrev()
      modifies this
      ensures currentPage == PrevPage(old(currentPage))
    {
      currentPage := if currentPage - 1 > 0 then currentPage - 1 else 0;
    }

    method SetCurrentPage(page: int)
      modifies this
      ensures currentPage == page
    {
      currentPage := page;
    }
  }
}
