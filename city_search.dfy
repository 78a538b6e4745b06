/**
 * The case-insensitive city search of the list pages: a table entry is kept
 * when its lower-cased label (and, on the edit page, its region) contains
 * the lower-cased query.
 */
module CitySearch {
  import opened Wrappers
  import opened Text
  import opened Seqs
  import opened TimezoneTypes
  import opened TimezoneTable

  /** `option.label.toLowerCase().includes(search.toLowerCase())` */
  predicate LabelMatches(search: string, t: Timezone) {
    Contains(Lower(t.city), Lower(search))
  }

  function LabelTest(search: string): Timezone -> bool {
    t => LabelMatches(search, t)
  }

  /** The filter of the main-page list and of the all-cities page. */
  function FilterByLabel(options: seq<Timezone>, search: string): (r: seq<Timezone>)
    ensures |r| <= |options|
    ensures forall t :: t in r <==> t in options && LabelMatches(search, t)
  {
    Filter(options, LabelTest(search))
  }

  /** The empty query keeps every entry, in order. */
  lemma EmptySearchKeepsAll(options: seq<Timezone>)
    ensures FilterByLabel(options, "") == options
  {
    forall i | 0 <= i < |options| ensures LabelTest("")(options[i]) {
      ContainsEmpty(Lower(options[i].city));
    }
    FilterKeepsAll(options, LabelTest(""));
  }

  /** Filtering keeps the order of the entries: it distributes over concatenation. */
  lemma FilterByLabelKeepsOrder(a: seq<Timezone>, b: seq<Timezone>, search: string)
    ensures FilterByLabel(a + b, search) == FilterByLabel(a, search) + FilterByLabel(b, search)
  {
    FilterAppend(a, b, LabelTest(search));
  }

  /** The query's case does not matter. */
  lemma FilterByLabelIgnoresCase(options: seq<Timezone>, search: string)
    ensures FilterByLabel(options, search) == FilterByLabel(options, Lower(search))
  {
    LowerIdempotent(search);
    FilterSameTest(options, LabelTest(search), LabelTest(Lower(search)));
  }

  /** A city's own label, in any case, finds it. */
  lemma OwnLabelFindsEntry(options: seq<Timezone>, i: nat)
    requires i < |options|
    ensures options[i] in FilterByLabel(options, options[i].city)
    ensures options[i] in FilterByLabel(options, Lower(options[i].city))
  {
    var l := Lower(options[i].city);
    assert l[..|l|] == l;
    LowerIdempotent(options[i].city);
  }

  // ---------------------------------------------------------------- label or region

  /**
   * `option.region.toLowerCase()`: None when the entry has no region, where
   * JavaScript throws a TypeError.
   */
  function LowerRegion(t: Timezone): (r: Option<string>)
    ensures r.Some? <==> t.region.Some?
  {
    match t.region
    case None => None
    case Some(region) => Some(Lower(region))
  }

  predicate LabelOrRegionMatches(search: string, t: Timezone)
    requires t.region.Some?
  {
    LabelMatches(search, t) || Contains(Lower(t.region.value), Lower(search))
  }

  predicate HasRegion(t: Timezone) {
    t.region.Some?
  }

  function LabelOrRegionTest(search: string): Timezone -> bool {
    t => HasRegion(t) && LabelOrRegionMatches(search, t)
  }

  /**
   * The edit-page list filter as written: both fields are lower-cased for
   * every option before the test, so one option without a region makes the
   * whole filter throw (None).
   */
  function FilterByLabelOrRegion(options: seq<Timezone>, search: string): (r: Option<seq<Timezone>>)
    ensures r.None? <==> exists i :: 0 <= i < |options| && options[i].region.None?
    ensures r.Some? ==> forall t :: t in r.value <==> t in options && LabelOrRegionMatches(search, t)
  {
    if forall i :: 0 <= i < |options| ==> HasRegion(options[i]) then
      Some(Filter(options, LabelOrRegionTest(search)))
    else None
  }

  /** Over the shipped table, which has no regions, the filter always throws. */
  lemma TableCrashesLabelOrRegion(search: string)
    ensures FilterByLabelOrRegion(TimezoneOptions, search).None?
  {
    NoRegions();
    FirstEntryIsNewYork();
    assert TimezoneOptions[0].region.None?;
  }

  /** A missing region read as the empty string, which is what the filter evidently means. */
  function RegionOrEmpty(t: Timezone): string {
    match t.region
    case None => ""
    case Some(region) => region
  }

  predicate LabelOrRegionMatchesFixed(search: string, t: Timezone) {
    LabelMatches(search, t) || Contains(Lower(RegionOrEmpty(t)), Lower(search))
  }

  function LabelOrRegionFixedTest(search: string): Timezone -> bool {
    t => LabelOrRegionMatchesFixed(search, t)
  }

  /** The label-or-region filter with `option.region?.toLowerCase() ?? ''`: it never throws. */
  function FilterByLabelOrRegionFixed(options: seq<Timezone>, search: string): (r: seq<Timezone>)
    ensures forall t :: t in r <==> t in options && LabelOrRegionMatchesFixed(search, t)
  {
    Filter(options, LabelOrRegionFixedTest(search))
  }

  /** Where every entry has a region the corrected filter agrees with the written one. */
  lemma FixedAgreesWhereRegionsExist(options: seq<Timezone>, search: string)
    requires forall i :: 0 <= i < |options| ==> options[i].region.Some?
    ensures FilterByLabelOrRegion(options, search) == Some(FilterByLabelOrRegionFixed(options, search))
  {
    FilterSameTest(options, LabelOrRegionTest(search), LabelOrRegionFixedTest(search));
  }

  /** The corrected filter keeps everything for the empty query. */
  lemma FixedEmptySearchKeepsAll(options: seq<Timezone>)
    ensures FilterByLabelOrRegionFixed(options, "") == options
  {
    forall i | 0 <= i < |options| ensures LabelOrRegionFixedTest("")(options[i]) {
      ContainsEmpty(Lower(options[i].city));
    }
    FilterKeepsAll(options, LabelOrRegionFixedTest(""));
  }

  /** On the table, which has no regions, the corrected filter is the label filter. */
  lemma FixedOnTableIsLabelFilter(search: string)
    ensures FilterByLabelOrRegionFixed(TimezoneOptions, search) == FilterByLabel(TimezoneOptions, search)
  {
    if search == "" {
      FixedEmptySearchKeepsAll(TimezoneOptions);
      EmptySearchKeepsAll(TimezoneOptions);
      return;
    }
    NoRegions();
    forall i | 0 <= i < |TimezoneOptions|
      ensures LabelOrRegionFixedTest(search)(TimezoneOptions[i]) == LabelTest(search)(TimezoneOptions[i])
    {
      assert RegionOrEmpty(TimezoneOptions[i]) == "";
      NothingInEmpty(Lower(search));
    }
    FilterSameTest(TimezoneOptions, LabelOrRegionFixedTest(search), LabelTest(search));
  }

  /** The empty text contains only the empty query. */
  lemma NothingInEmpty(q: string)
    requires q != ""
    ensures !Contains(Lower(""), q)
  {
    assert Lower("") == "";
  }
}
