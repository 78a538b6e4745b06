/** The picker of the main-page editor: options keyed and searched by city label. */
module ClockPageSelector {
  import opened Wrappers
  import opened Text
  import opened Seqs
  import opened TimezoneTypes
  import opened TimezoneTable
  import CitySearch
  import Selector

  function KeyOf(t: Timezone): string {
    t.city
  }

  /** The search text is the label alone. */
  function SearchText(t: Timezone): Option<string> {
    Some(t.city)
  }

  /** The value handed on is the whole option (its JSON text, read back by the caller). */
  function ValueOf(t: Timezone): Timezone {
    t
  }

  /** The options are passed through: the page gives the whole table. */
  function Options(): seq<Timezone> {
    TimezoneOptions
  }

  /**
   * For a query without white space at its ends the picker keeps exactly
   * the entries the list pages' label filter keeps, in the same order.
   */
  lemma PickerIsLabelFilter(options: seq<Timezone>, search: string)
    requires Trim(search) == search
    ensures Selector.FilterOptions(options, SearchText, search) == CitySearch.FilterByLabel(options, search)
  {
    forall i | 0 <= i < |options|
      ensures Selector.MatchTest(SearchText, search)(options[i]) == CitySearch.LabelTest(search)(options[i])
    {
      var t := options[i];
      assert Selector.MatchTest(SearchText, search)(t) == Selector.QueryMatches(SearchText(t), search);
      assert CitySearch.LabelTest(search)(t) == CitySearch.LabelMatches(search, t);
    }
    FilterSameTest(options, Selector.MatchTest(SearchText, search), CitySearch.LabelTest(search));
  }

  /** Labels are unique in the table, so at most one item is marked selected. */
  lemma OneMarkedItem(selected: Timezone, i: nat, j: nat)
    requires i < |Options()| && j < |Options()|
    requires Selector.IsSelected(KeyOf, selected, Options()[i]) && Selector.IsSelected(KeyOf, selected, Options()[j])
    ensures i == j
  {
    LabelsDistinct();
    Selector.AtMostOneSelected(Options(), KeyOf, selected, i, j);
  }
}
