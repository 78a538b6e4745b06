# World clock app — a Dafny model of its logic

The app shows a set of analogue clocks, one per chosen city. Users can swap a
clock's city from a searchable, paged list of 39 cities, or from a picker.
Sign-in state lives in a small store. This project models the logic under the
layout:

- the clock faces:
  - hand and tick angles;
  - the day/night rule;
  - face and hand colours;
  - the canvas lifecycle (mount, paint interval, teardown) as an event log;
- the `HH:mm` time formatter;
- the city table and the type of its records;
- the two store slices: clocks and auth;
- the paging hook;
- the generic searchable `Selector` and the two pickers built on it;
- the two city lists, with their search, pages and arrows;
- the two edit pages, one with swipe navigation;
- the all-cities page and the main clock page;
- the style helpers `spacing` and `mediaQuery`.

Modules follow the source files:

| Module | Source file |
|---|---|
| `ClockVisual` | `ClockVisual.tsx` |
| `ClockVisualSimple` | `ClockVisualSimple.tsx` |
| `FormattedTime` | `getFormattedTime.ts` |
| `TimezoneTable` | `timezones.const.ts` |
| `TimezoneTypes` | the record type and breakpoints |
| `TimezoneSlice` | `timezoneSlice.ts` |
| `AuthSlice` | `authSlice.ts` |
| `Pagination` | `usePagination.ts` |
| `Selector` | `Selector.tsx` |
| `ClockPageSelector` | `pages/Clock/ClockSelector.tsx` |
| `EditPageSelector` | `pages/EditClock/ClockSelector.tsx` |
| `ClockPageList` | `pages/Clock/ClockList.tsx` |
| `EditPageList` | `pages/EditClock/ClockList.tsx` |
| `ClockPageEditor` | `pages/Clock/EditClock.tsx` |
| `EditPage` | `pages/EditClock/EditClock.tsx` |
| `AllCities` | `AllCities.tsx` |
| `ClockPage` | `Clock.tsx` |
| `Style` | `style.ts` |

Shared helper modules:

- `Text`: JavaScript `toLowerCase`, `includes` and `trim`.
- `Numbers`: decimal rendering and `Number` on digit strings.
- `Seqs`: `filter`, `slice` and `find`.
- `CitySearch`: the label and label-or-region filters.
- `Canvas`: the drawing-event log.

Modelling choices:

- **Component state.** State a component keeps in React state or a store is a
  `class` whose methods update its fields.
- **Pure code.** Pure rules are functions, and their properties are lemmas.
- **Angles.** Angles are whole half-degrees, units of π/360 radians:
  - the hour hand sits at `(hour % 12)*60 + minute`;
  - the minute hand at `12*minute`;
  - tick `i` at `60*i`.

  Hand angles count clockwise from 12 o'clock, because `drawHand` subtracts
  π/2 before projecting. Tick angles count clockwise from 3 o'clock, because
  the tick loop projects `i·π/6` directly. `TickDirection` puts a tick in the
  hands' frame.
- **Timezone records.** A record's `region` is `Option<string>`. `None` is
  JavaScript's `undefined`, which every entry of the table has.
- **`JSON.stringify` / `JSON.parse`.** This round trip of an option is the
  identity.
- **Parameters.** Everything outside the code becomes a parameter:
  - the zone's current wall clock (Luxon);
  - sunrise and sunset (SunCalc), each possibly missing;
  - the local zone;
  - whether a 2D context exists;
  - `isMobile`.

Where the design text and the code disagree, the model follows the code:

- **Day/night.** A missing sunrise or sunset compares as NaN, so the face is
  night. No polar fallback policy is applied.
- **Empty list.** The paging hook moves to page -1 on an empty list.

## Model

| member | source | states |
|---|---|---|
| ClockVisual.HourAngle | src/components/ClockVisual/ClockVisual.tsx:94-95 | the hour hand's angle is below a full turn (720 half-degrees) |
| ClockVisual.MinuteAngle | src/components/ClockVisual/ClockVisual.tsx:95 | the minute hand's angle is at most 708, a multiple of 12 (6 degrees), and 0 exactly at minute 0 |
| ClockVisual.TickAngle | src/components/ClockVisual/ClockVisual.tsx:69-70 | each of the 12 ticks sits below a full turn on a multiple of 60 (30 degrees) |
| ClockVisual.HourAngleTwelveHourCycle | src/components/ClockVisual/ClockVisual.tsx:94 | hours h and h+12 put the hour hand at the same angle |
| ClockVisual.HourAngleReadBack | src/components/ClockVisual/ClockVisual.tsx:94-95 | the hour hand's angle encodes hour mod 12 and the minute exactly; the minute hand is 12 times the minute read back from it |
| ClockVisual.HourAngleInjective | src/components/ClockVisual/ClockVisual.tsx:120 | two times with the same hour-hand angle agree on hour mod 12 and minute |
| ClockVisual.TickDirection | src/components/ClockVisual/ClockVisual.tsx:69-74 | tick i points a quarter turn past its loop angle when measured from 12 o'clock like the hands: ticks 0–8 at 60·i+180, ticks 9–11 at 60·(i−9) |
| ClockVisual.HourHandOnTick | src/components/ClockVisual/ClockVisual.tsx:69-120 | on the hour h the hour hand lies on the tick drawn by iteration (h+9) mod 12, and never on the tick of iteration h mod 12 |
| ClockVisual.DaytimeBounds | src/components/ClockVisual/ClockVisual.tsx:26-34 | daytime holds at sunrise and at sunset, and never before sunrise or after sunset |
| ClockVisual.MissingSunTimeIsNight | src/components/ClockVisual/ClockVisual.tsx:33 | a missing sunrise or sunset (an invalid date) makes the clock show night |
| ClockVisual.DaytimeConvex | src/components/ClockVisual/ClockVisual.tsx:33 | daytime at two instants implies daytime at every instant between them |
| ClockVisual.FaceColor | src/components/ClockVisual/ClockVisual.tsx:64 | the face is white exactly by day and dark grey exactly by night |
| ClockVisual.HandColor | src/components/ClockVisual/ClockVisual.tsx:125-134 | both hands are blue exactly for the viewer's own zone and red otherwise |
| ClockVisual.TickOps | src/components/ClockVisual/ClockVisual.tsx:69-82 | the tick loop draws one tick per iteration |
| ClockVisual.TickOpsAngles | src/components/ClockVisual/ClockVisual.tsx:69-70 | the i-th tick drawn is at tick angle i |
| ClockVisual.StaticOpsShape | src/components/ClockVisual/ClockVisual.tsx:63-90 | the static part is the face in the day/night colour, then ticks at 0, 30, …, 330 degrees, then the city label |
| ClockVisual.StaticOpsCounts | src/components/ClockVisual/ClockVisual.tsx:69-82 | the static part draws exactly 12 ticks and no hand |
| ClockVisual.TickCount | src/components/ClockVisual/ClockVisual.tsx:69 | n tick iterations draw n ticks and no hand |
| ClockVisual.FramedTickCounts | src/components/ClockVisual/ClockVisual.tsx:63-90 | framing the ticks with a face and a label adds no tick and no hand |
| ClockVisual.DynamicOpsShape | src/components/ClockVisual/ClockVisual.tsx:92-146 | each repaint clears the canvas, redraws the static part, then draws the hour hand, the minute hand (both in the zone colour) and the hub: 18 operations, exactly 2 of them hands |
| ClockVisual.ClockVisualCanvas.constructor | src/components/ClockVisual/ClockVisual.tsx:14-23 | an absent size is 240 and an absent `isCurrentTimezone` is false; a new clock starts as daytime, with the canvas at its browser default size, no interval and nothing drawn |
| ClockVisual.ClockVisualCanvas.StartDaytimeWatch | src/components/ClockVisual/ClockVisual.tsx:26-37 | mounting the day/night effect classifies now and starts the 60 000 ms check, leaving the canvas alone |
| ClockVisual.ClockVisualCanvas.DaytimeTick | src/components/ClockVisual/ClockVisual.tsx:37 | each minute's check re-classifies the current instant and changes nothing else |
| ClockVisual.ClockVisualCanvas.StopDaytimeWatch | src/components/ClockVisual/ClockVisual.tsx:39 | cleanup cancels the day/night check only |
| ClockVisual.ClockVisualCanvas.DrawStaticPart | src/components/ClockVisual/ClockVisual.tsx:59-90 | drawing the static part appends exactly the static operations to the log |
| ClockVisual.ClockVisualCanvas.DrawDynamicPart | src/components/ClockVisual/ClockVisual.tsx:92-146 | a repaint appends exactly the clear, static part, two hands and hub |
| ClockVisual.ClockVisualCanvas.Mount | src/components/ClockVisual/ClockVisual.tsx:43-151 | with no 2D context nothing is sized, drawn or started; otherwise the canvas becomes size×size and is painted before the 10 000 ms interval starts |
| ClockVisual.ClockVisualCanvas.PaintTick | src/components/ClockVisual/ClockVisual.tsx:151 | an interval tick repaints the dynamic part only while the interval runs |
| ClockVisual.ClockVisualCanvas.Teardown | src/components/ClockVisual/ClockVisual.tsx:153-159 | teardown after a mount clears the canvas, sets both dimensions to 0 and stops the interval; after an aborted mount it does nothing |
| ClockVisualSimple.DrawingVariesOnlyInHands | src/components/ClockVisual/ClockVisualSimple.tsx:20-68 | every drawing first clears the whole canvas; the face is the same at every time; both hands are black; two times with equal hand angles draw the same picture |
| ClockVisualSimple.SimpleClockCanvas.constructor | src/components/ClockVisual/ClockVisualSimple.tsx:9 | an absent size is 110, a given one is kept; a new simple clock has the browser default canvas, no interval and nothing drawn |
| ClockVisualSimple.SimpleClockCanvas.DrawClock | src/components/ClockVisual/ClockVisualSimple.tsx:20-68 | a draw appends exactly the clock's operations and changes nothing else |
| ClockVisualSimple.SimpleClockCanvas.Mount | src/components/ClockVisual/ClockVisualSimple.tsx:13-71 | with no context nothing happens; otherwise the canvas is sized, drawn once, then the 60 000 ms redraw starts |
| ClockVisualSimple.SimpleClockCanvas.RedrawTick | src/components/ClockVisual/ClockVisualSimple.tsx:71 | a tick redraws only while the interval runs |
| ClockVisualSimple.SimpleClockCanvas.Teardown | src/components/ClockVisual/ClockVisualSimple.tsx:74-79 | teardown after a mount clears, zeroes both dimensions and stops the interval; with no interval it does nothing |
| FormattedTime.Pad2 | src/utils/getFormattedTime.ts:14 | a two-digit token renders any value below 100 as exactly two digits reading back as that value |
| FormattedTime.RunLength | src/utils/getFormattedTime.ts:14 | a format token is a maximal run of one repeated character |
| FormattedTime.RenderRun | src/utils/getFormattedTime.ts:14 | a token renders as digits or its own characters, at most twice its length; a run that is no hour or minute token is copied literally |
| FormattedTime.FormatTime | src/utils/getFormattedTime.ts:14 | every character of a formatted time is a digit or comes from the format |
| FormattedTime.GetFormattedTime | src/utils/getFormattedTime.ts:9-14 | an empty zone gives "Invalid Timezone"; a zone with no clock gives "Invalid DateTime"; otherwise the zone's wall clock is rendered in the format |
| FormattedTime.FormatWithoutTokens | src/utils/getFormattedTime.ts:14 | a format with no hour or minute token is returned unchanged |
| FormattedTime.DefaultFormatShape | src/utils/getFormattedTime.ts:9-14 | the default "HH:mm" gives two-digit hour, ':', two-digit minute: 5 characters with ':' at index 2 |
| FormattedTime.ParseHHmm | src/utils/getFormattedTime.ts:9 | only a five-character text with ':' at index 2 reads back as a valid wall clock |
| FormattedTime.ParseFormatted | src/utils/getFormattedTime.ts:9-14 | reading back a default-formatted time gives the wall clock that was formatted |
| FormattedTime.FormattedParse | src/utils/getFormattedTime.ts:9-14 | a text that reads back as a wall clock is exactly that clock's default formatting |
| TimezoneTable.EntryFactsAll | src/constants/timezones.const.ts:3-51 | entry i's label (by length, first and last character) leads back to i, its zone is an IANA "Area/Location" id, it has no region, and its coordinates lie on the globe |
| TimezoneTable.ZonesAreAreaIds | src/constants/timezones.const.ts:3-51 | every zone is "America/…", "Europe/…", "Asia/…", "Australia/…", "Pacific/…" or "Africa/…" with a non-empty location |
| TimezoneTable.TableSize | src/constants/timezones.const.ts:1-52 | the table has 39 entries |
| TimezoneTable.LabelsDistinct | src/constants/timezones.const.ts:3-51 | labels are pairwise distinct, so a label is a key |
| TimezoneTable.NoRegions | src/constants/timezones.const.ts:3-51 | no entry has a region |
| TimezoneTable.CoordinatesOnTheGlobe | src/constants/timezones.const.ts:3-51 | every latitude is within [-90, 90] and every longitude within [-180, 180] |
| TimezoneTable.FirstEntryIsNewYork | src/constants/timezones.const.ts:3 | entry 0 is New York in America/New_York |
| TimezoneTable.LosAngelesZoneShared | src/constants/timezones.const.ts:4-5 | Los Angeles and Las Vegas share a zone, and a first-match find by that zone yields Los Angeles |
| TimezoneTypes.BreakpointWidth | src/constants/breakpoints.const.ts:1-7 | every breakpoint is a CSS length ending in "px" |
| TimezoneTypes.IsCurrentTimezone | src/pages/Clock/Clock.tsx:147 | a clock is the viewer's own when its zone id equals the local zone; label, region and coordinates play no part (the same rule is at EditClock/EditClock.tsx:110 and AllCities.tsx:127) |
| TimezoneSlice.LocalClock | src/redux/timezoneSlice.ts:8-10 | the local clock is the first table entry in the local zone, and the "Local" fallback exactly when no entry is in that zone |
| TimezoneSlice.TableHasNoFallback | src/redux/timezoneSlice.ts:8-10 | the fallback is not a table entry, so it marks the no-match case unambiguously |
| TimezoneSlice.InitialClocks | src/redux/timezoneSlice.ts:12-17 | the initial store holds two clocks: the local clock, then New York |
| TimezoneSlice.LocalClockInLosAngelesZone | src/redux/timezoneSlice.ts:8-10 | in America/Los_Angeles the local clock is Los Angeles, not Las Vegas |
| TimezoneSlice.LocalClockOutsideTable | src/redux/timezoneSlice.ts:8-10 | outside every table zone the initial clocks are the fallback and New York |
| TimezoneSlice.LocalClockIsCurrent | src/redux/timezoneSlice.ts:7-10 | the first clock is marked current exactly when some table entry is in the local zone, or the local zone is named "local" |
| TimezoneSlice.TimezoneStore.constructor | src/redux/timezoneSlice.ts:12-17 | the store starts with the initial clocks |
| TimezoneSlice.TimezoneStore.UpdateClock | src/redux/timezoneSlice.ts:23-26 | the slot at the index becomes the new clock; every other slot stays; the length stays unless the index is one past the end |
| TimezoneSlice.Updated | src/redux/timezoneSlice.ts:25 | the updated list has the new clock at the index and the old clocks elsewhere |
| TimezoneSlice.UpdatedIdempotent | src/redux/timezoneSlice.ts:25 | applying the same update twice equals applying it once |
| AuthSlice.InitialAuth | src/redux/authSlice.ts:8-11 | a user is signed in at start exactly when a non-empty token is stored (the parameter is the `!!` of the stored string), and no redirect message is set |
| AuthSlice.Reduce | src/redux/authSlice.ts:17-25 | login signs in, logout signs out, and a redirect message is stored as given (null included); each leaves the other field alone |
| AuthSlice.SignedInAfterLast | src/redux/authSlice.ts:17-25 | after a run of actions, the user is signed in exactly when the last login/logout was a login |
| AuthSlice.MessagesKeepSignIn | src/redux/authSlice.ts:23-25 | redirect messages never change sign-in |
| AuthSlice.SignInKeepsMessage | src/redux/authSlice.ts:17-22 | logins and logouts never change the redirect message |
| AuthSlice.ReduceIdempotent | src/redux/authSlice.ts:17-25 | every action applied twice equals applying it once |
| AuthSlice.AuthStore.constructor | src/redux/authSlice.ts:8-11 | the store starts in the initial state |
| AuthSlice.AuthStore.LoginAction | src/redux/authSlice.ts:17-19 | dispatching login signs in and keeps the message |
| AuthSlice.AuthStore.LogoutAction | src/redux/authSlice.ts:20-22 | dispatching logout signs out and keeps the message |
| AuthSlice.AuthStore.SetRedirect | src/redux/authSlice.ts:23-25 | dispatching a message stores it and keeps sign-in |
| Pagination.TotalPages | src/hooks/usePagination.ts:8 | the page count is the ceiling of items over page size: enough pages for all items, no empty last page, and 0 exactly for no items |
| Pagination.NextPage | src/hooks/usePagination.ts:11-13 | next moves one page on, but never past the last page |
| Pagination.PrevPage | src/hooks/usePagination.ts:16-18 | previous moves one page back, but never below 0 |
| Pagination.MovesStayInRange | src/hooks/usePagination.ts:8-18 | from a valid page, next and previous give a valid page |
| Pagination.NextPrevInverse | src/hooks/usePagination.ts:11-18 | away from the ends, next and previous undo each other |
| Pagination.EndsAreFixed | src/hooks/usePagination.ts:11-18 | next on the last page and previous on page 0 stay put |
| Pagination.NextOnEmptyList | src/hooks/usePagination.ts:8-12 | with no items there are 0 pages and next moves to page -1 |
| Pagination.PageNonEmptyIffInRange | src/hooks/usePagination.ts:8 | a page of the list has items exactly when its number is below the page count |
| Pagination.PaginationState.constructor | src/hooks/usePagination.ts:5 | paging starts at page 0 |
| Pagination.PaginationState.HandleNext | src/hooks/usePagination.ts:11-13 | the handler moves to the next page as clamped |
| Pagination.PaginationState.HandlePrev | src/hooks/usePagination.ts:16-18 | the handler moves to the previous page as clamped |
| Pagination.PaginationState.SetCurrentPage | src/hooks/usePagination.ts:20 | the exposed setter sets any page, unguarded |
| Seqs.Filter | src/pages/Clock/ClockList.tsx:100-106 | filtering keeps exactly the items that pass the test |
| Seqs.FilterAppend | src/pages/Clock/ClockList.tsx:100-106 | filtering keeps the order of the list |
| Seqs.JsSlice | src/pages/Clock/ClockList.tsx:128-131 | `slice(start, end)` is `s[start..end]` for in-range bounds; in general it is the run of `s` between the two bounds read as `slice` reads them (negative from the end, clamped), empty exactly when the end bound is not past the start |
| Seqs.Page | src/pages/Clock/ClockList.tsx:128-131 | page p is the slice [4p, 4p+4) cut to the list; page -1 is empty |
| Seqs.FindIndex | src/pages/Clock/Clock.tsx:143-145 | find-first yields the first index whose item passes, or none exactly when none passes |
| Seqs.Find | src/redux/timezoneSlice.ts:8-10 | find yields the first item that passes, or none exactly when none passes |
| Text.Lower | src/pages/Clock/ClockList.tsx:103-104 | lower-casing keeps the length, maps each character, and leaves no capital letter |
| Text.LowerIdempotent | src/pages/Clock/ClockList.tsx:103-104 | lower-casing twice equals lower-casing once |
| Text.ContainsIffOccurs | src/pages/Clock/ClockList.tsx:103-104 | `includes` holds exactly when the substring occurs at some position |
| Text.Trim | src/components/Selector/Selector.tsx:130 | trimming yields the middle of the text, with only white space cut from both ends and no white space left at either end |
| Text.TrimIdempotent | src/components/Selector/Selector.tsx:130 | trimming twice equals trimming once |
| Text.TrimAllSpace | src/components/Selector/Selector.tsx:130 | a white-space-only query trims to the empty query |
| Numbers.NatToString | src/pages/Clock/Clock.tsx:126 | an index is written as digits with no leading zero |
| Numbers.DigitsValueOfNatToString | src/pages/Clock/Clock.tsx:126 | reading back a written index gives the index |
| Numbers.JsNumber | src/pages/EditClock/EditClock.tsx:46-48 | `Number` of a route id is a number exactly for digit strings, and 0 for the empty string |
| Numbers.JsNumberOfNatToString | src/pages/AllCities/AllCities.tsx:145 | `Number` of a written index is that index |
| CitySearch.FilterByLabel | src/pages/Clock/ClockList.tsx:100-106 | the label filter keeps exactly the options whose lower-cased label contains the lower-cased search |
| CitySearch.EmptySearchKeepsAll | src/pages/Clock/ClockList.tsx:100-106 | an empty search keeps every option |
| CitySearch.FilterByLabelKeepsOrder | src/pages/Clock/ClockList.tsx:100-106 | the label filter keeps the options' order |
| CitySearch.FilterByLabelIgnoresCase | src/pages/Clock/ClockList.tsx:103-104 | the label filter ignores the case of the search |
| CitySearch.OwnLabelFindsEntry | src/pages/Clock/ClockList.tsx:100-106 | searching an option's own label, in either case, finds it |
| CitySearch.FilterByLabelOrRegion | src/pages/EditClock/ClockList.tsx:139-149 | the label-or-region filter, as written, throws exactly when some option has no region; otherwise it keeps the options whose label or region contains the search |
| CitySearch.TableCrashesLabelOrRegion | src/pages/EditClock/ClockList.tsx:143 | run over the city table, the filter as written always throws |
| CitySearch.FilterByLabelOrRegionFixed | src/pages/EditClock/ClockList.tsx:139-149 | the corrected filter keeps exactly the options whose label, or region when there is one, contains the search |
| CitySearch.FixedAgreesWhereRegionsExist | src/pages/EditClock/ClockList.tsx:139-149 | where every option has a region, the corrected filter is the written one |
| CitySearch.FixedEmptySearchKeepsAll | src/pages/EditClock/ClockList.tsx:144-147 | an empty search keeps every option in the corrected filter |
| CitySearch.FixedOnTableIsLabelFilter | src/pages/EditClock/ClockList.tsx:139-149 | on the city table, the corrected filter is the label filter |
| Selector.FilterOptions | src/components/Selector/Selector.tsx:125-133 | an option is kept exactly when it has a search text whose lower case contains the trimmed, lower-cased query |
| Selector.BlankQueryKeepsAll | src/components/Selector/Selector.tsx:130 | a white-space-only query keeps every option that has a search text |
| Selector.FilterOptionsKeepsOrder | src/components/Selector/Selector.tsx:126 | filtering keeps the options' order |
| Selector.QueryIsTrimmed | src/components/Selector/Selector.tsx:130 | white space around the query does not change the result |
| Selector.AtMostOneSelected | src/components/Selector/Selector.tsx:155 | with distinct keys, at most one item is marked selected |
| Selector.ChosenIsSelected | src/components/Selector/Selector.tsx:155 | the selected option's own item is marked selected |
| Selector.ListNotice | src/components/Selector/Selector.tsx:149-162 | "No search results" shows exactly when nothing matches |
| Selector.SelectorState.constructor | src/components/Selector/Selector.tsx:114 | the picker starts with an empty search |
| Selector.SelectorState.OnSearchInput | src/components/Selector/Selector.tsx:114 | typing sets the search |
| Selector.SelectorState.Choose | src/components/Selector/Selector.tsx:116-122 | choosing emits the option's value when there is a listener, and clears the search |
| Selector.ClearedSearchShowsAll | src/components/Selector/Selector.tsx:121-133 | after a choice clears the search, every option is listed again |
| ClockPageSelector.PickerIsLabelFilter | src/pages/Clock/ClockSelector.tsx:57 | searching by label alone, the picker keeps exactly what the list pages' label filter keeps |
| ClockPageSelector.OneMarkedItem | src/pages/Clock/ClockSelector.tsx:46-49 | keyed by label over the table, at most one item is marked selected |
| EditPageSelector.RegionText | src/pages/EditClock/ClockSelector.tsx:60 | a present region is written as itself |
| EditPageSelector.LabelOrRegionFindsOption | src/pages/EditClock/ClockSelector.tsx:60 | a query found in the label or in the region finds the option |
| EditPageSelector.UndefinedMatchesRegionless | src/pages/EditClock/ClockSelector.tsx:60 | as written, the query "undefined" matches every option without a region |
| EditPageSelector.UndefinedMatchesEveryCity | src/pages/EditClock/ClockSelector.tsx:60 | as written, the query "undefined" matches every city of the table |
| EditPageSelector.FixedPickerOnTableSearchesLabels | src/pages/EditClock/ClockSelector.tsx:60 | with the corrected search text, the picker over the table searches labels only, like the main-page picker |
| EditPageSelector.FixedAgreesWithRegion | src/pages/EditClock/ClockSelector.tsx:60 | for an option with a region, the corrected search text is the written one |
| ClockPageList.GuardedNext | src/pages/Clock/ClockList.tsx:116-120 | next advances only when there is a later page, else stays |
| ClockPageList.GuardedPrev | src/pages/Clock/ClockList.tsx:122-126 | previous goes back only above page 0, else stays |
| ClockPageList.GuardedAgreesWithClamped | src/pages/Clock/ClockList.tsx:116-126 | on a valid page, the guarded moves equal the paging hook's clamped moves |
| ClockPageList.GuardedDiffersOnEmpty | src/pages/Clock/ClockList.tsx:116-120 | on an empty list the guarded next stays at 0, where the hook's next goes to -1 |
| ClockPageList.View | src/pages/Clock/ClockList.tsx:128-184 | at most 4 cards show; the left arrow shows exactly off page 0; the right arrow exactly off the last page |
| ClockPageList.RightArrowOnEmptyResult | src/pages/Clock/ClockList.tsx:184 | when nothing matches, page 0 shows no card but a right arrow, and clicking it stays on page 0 |
| ClockPageList.GuardedMovesKeepValid | src/pages/Clock/ClockList.tsx:116-126 | guarded moves keep a valid page valid |
| ClockPageList.ValidPageShowsCards | src/pages/Clock/ClockList.tsx:108-131 | a page shows cards exactly when it is below the page count |
| ClockPageList.ClockListState.constructor | src/pages/Clock/ClockList.tsx:95-96 | the list starts on page 0 with an empty search |
| ClockPageList.ClockListState.HandleNext | src/pages/Clock/ClockList.tsx:116-120 | the handler makes the guarded move and keeps the page valid |
| ClockPageList.ClockListState.HandlePrev | src/pages/Clock/ClockList.tsx:122-126 | the handler makes the guarded move and keeps the page valid |
| ClockPageList.ClockListState.OnSearchInput | src/pages/Clock/ClockList.tsx:144-147 | typing sets the search and returns to page 0 |
| ClockPageList.ClockListState.OnCardClick | src/pages/Clock/ClockList.tsx:110-114 | a card click forwards the option, returns to page 0 and clears the search |
| ClockPageList.ClockListState.OnSelectedClockChange | src/pages/Clock/ClockList.tsx:133-136 | a new selected clock returns to page 0 and clears the search |
| EditPageList.Notice | src/pages/EditClock/ClockList.tsx:182-238 | a notice shows exactly for no data or an empty page |
| EditPageList.PageView | src/pages/EditClock/ClockList.tsx:165-243 | at most 4 cards show; each arrow needs a non-empty page, the left one off page 0, the right one off the last page |
| EditPageList.View | src/pages/EditClock/ClockList.tsx:139-184 | without options the list throws; with options it throws exactly when some option has no region; no options shows the no-data notice |
| EditPageList.ListAlwaysCrashes | src/pages/EditClock/EditClock.tsx:166-170 | as the edit page renders it (no options), and even over the whole table, the list always throws |
| EditPageList.ViewFixed | src/pages/EditClock/ClockList.tsx:139-184 | with the corrected filter the list never throws, and shows no-data exactly for no options |
| EditPageList.FixedAgreesWhereRegionsExist | src/pages/EditClock/ClockList.tsx:139-149 | where every option has a region, the corrected view is the written one |
| EditPageList.FixedFirstPage | src/pages/EditClock/EditClock.tsx:166-170 | given the table, the corrected list's first page shows its first 4 cities with only the right arrow |
| EditPageList.FixedPageShowsCards | src/pages/EditClock/ClockList.tsx:165-170 | a page shows cards exactly when it is below the page count |
| EditPageList.ResetShowsFirstPage | src/pages/EditClock/ClockList.tsx:172-179 | after a reset the list shows the first page of all options, with no left arrow |
| EditPageList.EditListState.constructor | src/pages/EditClock/ClockList.tsx:136-151 | the list starts on page 0 with an empty search |
| EditPageList.EditListState.OnSearchInput | src/pages/EditClock/ClockList.tsx:192-195 | typing sets the search and returns to page 0 |
| EditPageList.EditListState.OnCardClick | src/pages/EditClock/ClockList.tsx:154-158 | a card click forwards the option, returns to page 0 and clears the search |
| EditPageList.EditListState.OnAllCitiesClick | src/pages/EditClock/ClockList.tsx:160-163 | the all-cities link carries the selected clock's city and an id that reads back as the selected index |
| EditPageList.EditListState.OnSelectedClockChange | src/pages/EditClock/ClockList.tsx:172-179 | a new selected clock returns to page 0 and clears the search |
| EditPageList.EditListState.HandleNext | src/pages/EditClock/ClockList.tsx:151-152 | the arrow makes the paging hook's clamped next move |
| EditPageList.EditListState.HandlePrev | src/pages/EditClock/ClockList.tsx:151-152 | the arrow makes the paging hook's clamped previous move |
| EditPage.InitialIndex | src/pages/EditClock/EditClock.tsx:45-48 | the route id gives the index when it is numeric, and 0 when it is missing, empty or not numeric |
| EditPage.RouteIndexRoundTrip | src/pages/EditClock/EditClock.tsx:45-48 | an index written into the route reads back as itself |
| EditPage.SelectedClock | src/pages/EditClock/EditClock.tsx:54 | the selected clock exists exactly when the index is in range, and is the clock at the index |
| EditPage.SelectedTime | src/pages/EditClock/EditClock.tsx:56-62 | the time shown is the selected clock's formatted time, and missing (the page throws) exactly when the index is out of range |
| EditPage.SwipeTarget | src/pages/EditClock/EditClock.tsx:81-97 | with no recorded start nothing moves; a swipe over 50 px left goes on one clock if there is one; over 50 px right goes back one above 0; in every other case, short swipes and swipes at either end included, the index stays |
| EditPage.SwipeStaysInRange | src/pages/EditClock/EditClock.tsx:86-92 | swipes keep an in-range index in range |
| EditPage.ShortSwipeKeepsIndex | src/pages/EditClock/EditClock.tsx:86-89 | a swipe of at most 50 px either way keeps the index |
| EditPage.OppositeSwipesCancel | src/pages/EditClock/EditClock.tsx:86-92 | a long swipe left then one right return to the same clock |
| EditPage.SelectionMarks | src/pages/EditClock/EditClock.tsx:116 | exactly the clock at the index is marked selected |
| EditPage.OneClockMarked | src/pages/EditClock/EditClock.tsx:116 | one clock is marked for an in-range index, none otherwise |
| EditPage.MarksCount | src/pages/EditClock/EditClock.tsx:116 | a marking that holds only at one index counts one mark in range, none outside |
| EditPage.EditPageState.constructor | src/pages/EditClock/EditClock.tsx:45-50 | the page starts at the route's index with no touch recorded and no time shown |
| EditPage.EditPageState.UpdateTime | src/pages/EditClock/EditClock.tsx:56-62 | the time is refreshed to the selected clock's formatted time; an out-of-range index throws and changes nothing |
| EditPage.EditPageState.ClockIsCurrent | src/pages/EditClock/EditClock.tsx:110 | clock i shows the location icon exactly when its zone is the local zone |
| EditPage.EditPageState.HandleTouchStart | src/pages/EditClock/EditClock.tsx:77-79 | a touch records its start and keeps the index and the shown time |
| EditPage.EditPageState.HandleTouchEnd | src/pages/EditClock/EditClock.tsx:81-97 | a touch end moves to the swipe target, always forgets the start, and keeps the shown time |
| EditPage.EditPageState.OnClockClick | src/pages/EditClock/EditClock.tsx:115 | clicking clock i selects it and keeps the touch start and the shown time |
| EditPage.EditPageState.OnTimezoneChange | src/pages/EditClock/EditClock.tsx:72-75 | a chosen city replaces exactly the selected slot, which then holds it |
| ClockPageEditor.InitialSelection | src/pages/Clock/EditClock.tsx:125-127 | a written index selects itself; a missing or non-numeric id selects 0 |
| ClockPageEditor.MarksFollowSelection | src/pages/Clock/EditClock.tsx:164 | exactly one clock, the selected one, is marked |
| ClockPageEditor.EditorState.constructor | src/pages/Clock/EditClock.tsx:125-128 | the editor starts at the route's index with no time shown |
| ClockPageEditor.EditorState.UpdateTime | src/pages/Clock/EditClock.tsx:134-144 | the time is refreshed to the selected clock's formatted time; an out-of-range index throws and changes nothing |
| ClockPageEditor.EditorState.OnClockClick | src/pages/Clock/EditClock.tsx:163 | clicking clock i selects it and keeps the shown time |
| ClockPageEditor.EditorState.OnTimezoneChange | src/pages/Clock/EditClock.tsx:150-153 | a chosen city replaces exactly the selected slot, which then holds it |
| AllCities.SelectedCity | src/pages/AllCities/AllCities.tsx:124-125 | the page's clock is the first store clock with the route city as label, or New York (table entry 0) when none has it |
| AllCities.AllCitiesPage.ShowsLocationIcon | src/pages/AllCities/AllCities.tsx:127 | the icon shows exactly when the local zone is the zone of the page's clock (the found one or New York) |
| AllCities.UnknownCityShowsNewYork | src/pages/AllCities/AllCities.tsx:124-125 | a route city that no clock has shows New York |
| AllCities.Notice | src/pages/AllCities/AllCities.tsx:196-207 | "No search results" shows exactly when no city matches |
| AllCities.Cards | src/pages/AllCities/AllCities.tsx:130-135 | the cards are exactly the table cities whose lowered label contains the lowered search, never more than the table |
| AllCities.EmptySearchShowsAllCities | src/pages/AllCities/AllCities.tsx:130-135 | an empty search lists the whole table, with no notice |
| AllCities.SameSlotAsEditPage | src/pages/AllCities/AllCities.tsx:145 | a numeric id names the same clock slot here as on the edit page |
| AllCities.OpenedFromEditList | src/pages/AllCities/AllCities.tsx:124-145 | opened from the edit list for clock i (labels unique before it), the page shows clock i and writes back into slot i |
| AllCities.AllCitiesPage.constructor | src/pages/AllCities/AllCities.tsx:114-116 | the page starts with its route parameters, an empty search and no time |
| AllCities.AllCitiesPage.UpdateTime | src/pages/AllCities/AllCities.tsx:150-160 | the time shown is the page clock's formatted time |
| AllCities.AllCitiesPage.PreviousPage | src/pages/AllCities/AllCities.tsx:138-140 | going back returns to the edit page for the same id |
| AllCities.AllCitiesPage.OnSearchInput | src/pages/AllCities/AllCities.tsx:188 | typing sets the search and keeps the shown time |
| AllCities.AllCitiesPage.OnCardClick | src/pages/AllCities/AllCities.tsx:143-147 | a card click writes the city into slot `Number(id)` when that is a number (nothing otherwise) and returns to the edit page for id |
| ClockPage.CurrentTimes | src/pages/Clock/Clock.tsx:100-115 | the time table has one entry per clock, in order, pairing its label with its zone's formatted time |
| ClockPage.DisplayedTimeOfClock | src/pages/Clock/Clock.tsx:143-145 | a clock shows the time of the first clock with its label |
| ClockPage.DisplayedTime | src/pages/Clock/Clock.tsx:143-145 | no time exactly when no entry has the label; otherwise the time of the first entry with that label |
| ClockPage.UniqueLabelsShowOwnTimes | src/pages/Clock/Clock.tsx:143-145 | when labels are unique, each clock shows its own zone's time |
| ClockPage.ClockSize | src/pages/Clock/Clock.tsx:162 | clocks are 300 wide exactly off mobile and 240 exactly on mobile |
| ClockPage.ClickOpensEditorAtClock | src/pages/Clock/Clock.tsx:125-152 | clicking clock i opens the editor at index i; the edit icon opens it at 0 |
| ClockPage.ClockPageState.constructor | src/pages/Clock/Clock.tsx:100-105 | the page starts with the current time table |
| ClockPage.ClockPageState.RefreshTimes | src/pages/Clock/Clock.tsx:107-120 | each refresh rebuilds the time table from the store's clocks |
| ClockPage.ClockPageState.HandleEdit | src/pages/Clock/Clock.tsx:125-127 | editing navigates to a route whose id reads back as the index |
| ClockPage.ClockPageState.HandleLogout | src/pages/Clock/Clock.tsx:129-132 | logout signs out and keeps the redirect message |
| ClockPage.ClockPageState.ClockIsCurrent | src/pages/Clock/Clock.tsx:147 | clock i shows the location icon exactly when its zone is the local zone |
| Style.Length | src/style.ts:67 | each spacing part is decimal digits reading as n·8 (4 per half-unit), then "px", with no space |
| Style.Spacing | src/style.ts:64-67 | spacing is empty exactly for no arguments |
| Style.SplitJoin | src/style.ts:67 | joining parts without the separator and splitting again gives back the parts |
| Style.SpacingParts | src/style.ts:64-67 | the spacing of n values has exactly n space-separated parts, the i-th being the i-th length |
| Style.SpacingExamples | src/style.ts:64-67 | spacing(1) is "8px", spacing(0) is "0px", spacing(0.5) is "4px", spacing() is "", spacing(1, 0.5) is "8px 4px" |
| Style.MediaQuery | src/style.ts:87-89 | a media query is "@media (min-width: ", the breakpoint's width, then ")" |
| Style.MediaQueryInjective | src/style.ts:87-89 | different breakpoints give different media queries |
| Style.BreakpointsAscend | src/constants/breakpoints.const.ts:1-7 | each breakpoint reads as its pixel count, and the widths grow from mobile to ultra-wide |

## Left out

- **Pixels and floating point.** Trigonometry, pixel coordinates and float scalings are not modelled. This covers radii, hand lengths, line widths and fonts. Angles are whole half-degrees, and drawing operations are recorded as events carrying those angles.
- **Luxon and SunCalc.** A zone's current wall clock is a parameter `string -> Option<WallClock>`. The zone database, DST and invalid zones are not modelled. Sunrise and sunset are parameters of type `Option<int>`.
- **Logging.** The `console.error` that `getFormattedTime` issues for an empty zone is not modelled; only its returned 'Invalid Timezone' is.
- **Luxon format tokens.** Only the `H`/`HH` and `m`/`mm` tokens are modelled. Every other format character is copied literally.
- **Local timezone.** `getLocalTimezone` is missing from the source files, and `Intl.DateTimeFormat` is a browser API. The local zone is a parameter.
- **The `timezoneUtils` formatter.** `AllCities.tsx` and `EditClock/ClockSelector.tsx` import `getFormattedTime` from `utils/timezoneUtils`, which is not part of this model. Their times are taken to come from the formatter in `utils/getFormattedTime.ts`, with its default `HH:mm` format.
- **Touch coordinates.** `clientX` is a JavaScript number that can be fractional. Swipe positions and distances are whole pixels here, so a distance strictly between 50 and 51 pixels is not modelled.
- **React scheduling.** React effects, re-renders, timers and `setInterval` callbacks are not modelled. They become explicit method calls: `Mount`, `PaintTick`, `DaytimeTick`, `RefreshTimes`, `UpdateTime`. Intervals are recorded as their period.
- **JSON.** `JSON.stringify`/`JSON.parse` of an option is taken as the identity.
- **Text functions.**
  - `toLowerCase` folds ASCII capitals only.
  - `trim` removes ASCII white space only.
  - `Number(id)` accepts digit strings only. Signs, decimals, exponents and surrounding white space, all accepted by JavaScript, are not modelled.
  - `encodeURIComponent` on route parts is the identity.
- **Navigation.** Routes to fixed pages, such as `PagesRoutes.CLOCK` and `PagesRoutes.MAIN`, are not modelled. Only routes that carry an index or a city are.
- **TimezoneSlice.TimezoneStore.UpdateClock:** requires `index <= |clocks|`. JavaScript would also write past the end, leaving holes; that case is not modelled.
- **AllCities.AllCitiesPage.OnCardClick:** requires the numeric id to be at most the clock count, for the same reason.
- **Non-numeric id on the all-cities page.** With a non-numeric `id` the store write goes to the NaN property, which leaves the list unchanged in a production build. Immer's development build throws on that write instead; that case is not modelled.
- **EditPage.EditPageState.OnTimezoneChange:** requires the index to be at most the clock count, for the same reason.
- **ClockPageEditor.EditorState.OnTimezoneChange:** requires the index to be at most the clock count, for the same reason.
- **Pagination.TotalPages:** requires a positive page size. The source always passes 4.
- **EditPageList.EditListState:**
  - Its `Render` uses the corrected filter.
  - The crash of the filter as written is stated by `EditPageList.View` and `EditPageList.ListAlwaysCrashes`.
- **Card contents.** A card's and a picker option's displayed time and label markup are not modelled, nor are animations, icons and other widgets. The time is `GetFormattedTime`.
- **Out of scope.** The login page, API calls, services, routing setup, the other components and the style objects other than `spacing` and `mediaQuery` are not part of this model.

## Findings

| source | as written | input that shows it | evidently intended | confidence | as-written member | corrected member |
|---|---|---|---|---|---|---|
| src/pages/EditClock/EditClock.tsx:166-170 | the edit page renders `ClockList` without its `options` prop, so the list filters `undefined` | any render of the list view on the edit page | pass the city table as `options` | not executed | EditPageList.ListAlwaysCrashes | EditPageList.FixedFirstPage |
| src/pages/EditClock/ClockList.tsx:143 | the filter calls `region.toLowerCase()`, but no table entry has a region, so it throws | the options `TIMEZONE_OPTIONS` with any search, even the empty one | match on the label, and on the region only when there is one | not executed | CitySearch.TableCrashesLabelOrRegion | CitySearch.FixedOnTableIsLabelFilter |
| src/pages/EditClock/ClockSelector.tsx:60 | the search text is `label + ' ' + region`, and with no region it ends in "undefined" | the query "undefined" lists every one of the 39 cities | leave a missing region out of the search text | not executed | EditPageSelector.UndefinedMatchesEveryCity | EditPageSelector.FixedPickerOnTableSearchesLabels |
