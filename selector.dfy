/**
 * The generic option picker: a search box over a list of options, each with
 * a key, a search text and a value handed to the caller when chosen.
 */
module Selector {
  import opened Wrappers
  import opened Text
  import opened Seqs

  const NoResults: string := "No search results"

  /**
   * An option stays in the list when its search text is a string whose lower
   * case contains the trimmed, lower-cased query. A search text that is not a
   * string (None) never matches.
   */
  predicate QueryMatches(text: Option<string>, search: string) {
    text.Some? && Contains(Lower(text.value), Lower(Trim(search)))
  }

  function MatchTest<T>(searchTextOf: T -> Option<string>, search: string): T -> bool {
    option => QueryMatches(searchTextOf(option), search)
  }

  /** `filteredOptions`. */
  function FilterOptions<T(==, !new)>(options: seq<T>, searchTextOf: T -> Option<string>, search: string): (r: seq<T>)
    ensures |r| <= |options|
    ensures forall x :: x in r <==> x in options && QueryMatches(searchTextOf(x), search)
  {
    Filter(options, MatchTest(searchTextOf, search))
  }

  /** A query of white space only keeps every option whose search text is a string. */
  lemma BlankQueryKeepsAll<T(!new)>(options: seq<T>, searchTextOf: T -> Option<string>, search: string)
    requires AllSpace(search)
    requires forall i :: 0 <= i < |options| ==> searchTextOf(options[i]).Some?
    ensures FilterOptions(options, searchTextOf, search) == options
  {
    TrimAllSpace(search);
    forall i | 0 <= i < |options| ensures MatchTest(searchTextOf, search)(options[i]) {
      ContainsEmpty(Lower(searchTextOf(options[i]).value));
    }
    FilterKeepsAll(options, MatchTest(searchTextOf, search));
  }

  /** Filtering keeps the order of the options. */
  lemma FilterOptionsKeepsOrder<T(!new)>(a: seq<T>, b: seq<T>, searchTextOf: T -> Option<string>, search: string)
    ensures FilterOptions(a + b, searchTextOf, search) == FilterOptions(a, searchTextOf, search) + FilterOptions(b, searchTextOf, search)
  {
    FilterAppend(a, b, MatchTest(searchTextOf, search));
  }

  /** White space around the query does not change the result. */
  lemma QueryIsTrimmed<T(!new)>(options: seq<T>, searchTextOf: T -> Option<string>, search: string)
    ensures FilterOptions(options, searchTextOf, search) == FilterOptions(options, searchTextOf, Trim(search))
  {
    var t := Trim(search);
    TrimIdempotent(search);
    forall i | 0 <= i < |options|
      ensures MatchTest(searchTextOf, search)(options[i]) == MatchTest(searchTextOf, t)(options[i])
    {
    }
    FilterSameTest(options, MatchTest(searchTextOf, search), MatchTest(searchTextOf, t));
  }

  /** The list item for `option` is marked when its key is the selected option's key. */
  predicate IsSelected<T>(keyOf: T -> string, selectedOption: T, option: T) {
    keyOf(selectedOption) == keyOf(option)
  }

  /** With keys unique among the options, at most one item is marked, and it is the selected option itself if present. */
  lemma AtMostOneSelected<T>(options: seq<T>, keyOf: T -> string, selectedOption: T, i: nat, j: nat)
    requires forall a, b :: 0 <= a < b < |options| ==> keyOf(options[a]) != keyOf(options[b])
    requires i < |options| && j < |options|
    requires IsSelected(keyOf, selectedOption, options[i]) && IsSelected(keyOf, selectedOption, options[j])
    ensures i == j
  {
  }

  /** The option chosen from a list shows as selected once the caller adopts it. */
  lemma ChosenIsSelected<T>(keyOf: T -> string, option: T)
    ensures IsSelected(keyOf, option, option)
  {
  }

  /** What the list area shows: the items, or the empty-result notice. */
  function ListNotice<T>(filtered: seq<T>): (r: Option<string>)
    ensures r.Some? <==> |filtered| == 0
    ensures r.Some? ==> r.value == NoResults
  {
    if |filtered| != 0 then None else Some(NoResults)
  }

  /**
   * One selector. The props are constants; the search text is the
   * component's state. `hasOnChange` says whether the caller passed `onChange`.
   */
  class SelectorState<T(==, !new), V> {
    const options: seq<T>
    const selectedOption: T
    const keyOf: T -> string
    const searchTextOf: T -> Option<string>
    const valueOf: T -> V
    const hasOnChange: bool
    var search: string

    constructor (options: seq<T>, selectedOption: T, keyOf: T -> string, searchTextOf: T -> Option<string>, valueOf: T -> V, hasOnChange: bool)
      ensures this.options == options && this.selectedOption == selectedOption && this.keyOf == keyOf
      ensures this.searchTextOf == searchTextOf && this.valueOf == valueOf && this.hasOnChange == hasOnChange
      ensures search == ""
    {
      this.options := options;
      this.selectedOption := selectedOption;
      this.keyOf := keyOf;
      this.searchTextOf := searchTextOf;
      this.valueOf := valueOf;
      this.hasOnChange := hasOnChange;
      search := "";
    }

    /** The options on screen for the current search. */
    function Filtered(): seq<T>
      reads this
    {
      FilterOptions(options, searchTextOf, search)
    }

    /** Typing in the search box. */
    method OnSearchInput(text: string)
      modifies this
      ensures search == text
    {
      search := text;
    }

    /**
     * `handleOnchange`: the chosen option's value goes to `onChange`, when
     * there is one, and the search is cleared.
     */
    method Choose(option: T) returns (emitted: Option<V>)
      modifies this
      ensures emitted == (if hasOnChange then Some(valueOf(option)) else None)
      ensures search == ""
    {
      emitted := if hasOnChange then Some(valueOf(option)) else None;
      search := "";
    }
  }

  /** After a choice every option whose search text is a string is on screen again. */
  lemma ClearedSearchShowsAll<T(!new)>(options: seq<T>, searchTextOf: T -> Option<string>)
    requires forall i :: 0 <= i < |options| ==> searchTextOf(options[i]).Some?
    ensures FilterOptions(options, searchTextOf, "") == options
  {
    BlankQueryKeepsAll(options, searchTextOf, "");
  }
}
