/**
 * The picker of the edit page: options keyed by label and searched by
 * label and region joined with a space.
 */
module EditPageSelector {
  import opened Wrappers
  import opened Text
  import opened Seqs
  import opened TimezoneTypes
  import opened TimezoneTable
  import CitySearch
  import Selector
  import ClockPageSelector

  function KeyOf(t: Timezone): string {
    t.city
  }

  /** How JavaScript writes a region into a string: a missing one becomes 'undefined'. */
  function RegionText(region: Option<string>): (r: string)
    ensures region.Some? ==> r == region.value
  {
    match region
    case None => "undefined"
    case Some(text) => text
  }

  /** `option.label + ' ' + option.region`, as written. */
  function SearchText(t: Timezone): Option<string> {
    Some(t.city + " " + RegionText(t.region))
  }

  function ValueOf(t: Timezone): Timezone {
    t
  }

  function Options(): seq<Timezone> {
    TimezoneOptions
  }

  /** A query found in the label, or in the region, finds the option. */
  lemma LabelOrRegionFindsOption(t: Timezone, search: string)
    requires CitySearch.LabelMatches(Trim(search), t) || Contains(Lower(RegionText(t.region)), Lower(Trim(search)))
    ensures Selector.QueryMatches(SearchText(t), search)
  {
    var q := Lower(Trim(search));
    LowerAppend(t.city + " ", RegionText(t.region));
    LowerAppend(t.city, " ");
    if CitySearch.LabelMatches(Trim(search), t) {
      ContainsInPrefix(Lower(t.city), Lower(" "), q);
      ContainsInPrefix(Lower(t.city) + Lower(" "), Lower(RegionText(t.region)), q);
    } else {
      ContainsInSuffix(Lower(t.city) + Lower(" "), Lower(RegionText(t.region)), q);
    }
  }

  /** As written, the query 'undefined' matches every option that has no region. */
  lemma UndefinedMatchesRegionless(options: seq<Timezone>)
    requires forall i :: 0 <= i < |options| ==> options[i].region.None?
    ensures Selector.FilterOptions(options, SearchText, "undefined") == options
  {
    var q := "undefined";
    UndefinedIsTrimmed();
    UndefinedIsLowerCase();
    UndefinedContainsItself();
    forall i | 0 <= i < |options| ensures Selector.MatchTest(SearchText, q)(options[i]) {
      var t := options[i];
      assert RegionText(t.region) == q;
      LabelOrRegionFindsOption(t, q);
    }
    FilterKeepsAll(options, Selector.MatchTest(SearchText, q));
  }

  lemma UndefinedIsTrimmed()
    ensures Trim("undefined") == "undefined"
  {
    TrimKeepsTrimmed("undefined");
  }

  lemma UndefinedIsLowerCase()
    ensures Lower("undefined") == "undefined"
  {
    LowerKeepsLower("undefined");
  }

  lemma UndefinedContainsItself()
    ensures Contains("undefined", "undefined")
  {
    ContainsSelf("undefined");
  }

  /** So on the table, which has no regions, 'undefined' lists every city. */
  lemma UndefinedMatchesEveryCity()
    ensures Selector.FilterOptions(Options(), SearchText, "undefined") == Options()
  {
    NoRegions();
    UndefinedMatchesRegionless(TimezoneOptions);
  }

  /** The search text with a missing region left out, as the page evidently means. */
  function SearchTextFixed(t: Timezone): Option<string> {
    match t.region
    case None => Some(t.city)
    case Some(region) => Some(t.city + " " + region)
  }

  /** With the corrected search text, a table entry is found by its label and only by it. */
  lemma FixedPickerOnTableSearchesLabels(search: string)
    ensures Selector.FilterOptions(Options(), SearchTextFixed, search)
         == Selector.FilterOptions(Options(), ClockPageSelector.SearchText, search)
  {
    NoRegions();
    forall i | 0 <= i < |Options()|
      ensures Selector.MatchTest(SearchTextFixed, search)(Options()[i])
           == Selector.MatchTest(ClockPageSelector.SearchText, search)(Options()[i])
    {
      var t := Options()[i];
      assert t.region.None?;
      assert SearchTextFixed(t) == ClockPageSelector.SearchText(t);
      assert Selector.MatchTest(SearchTextFixed, search)(t) == Selector.QueryMatches(SearchTextFixed(t), search);
      assert Selector.MatchTest(ClockPageSelector.SearchText, search)(t) == Selector.QueryMatches(ClockPageSelector.SearchText(t), search);
    }
    FilterSameTest(Options(), Selector.MatchTest(SearchTextFixed, search), Selector.MatchTest(ClockPageSelector.SearchText, search));
  }

  /** Where an option has a region the corrected text is the written one. */
  lemma FixedAgreesWithRegion(t: Timezone)
    requires t.region.Some?
    ensures SearchTextFixed(t) == SearchText(t)
  {
  }
}
