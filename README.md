# polydash derived views, in Dafny

polydash is a dashboard over prediction-market data. Two server routes
(`/api/markets` and `/api/events`) read markets and events from the
database. They rename the database columns, group each market under its
event, and filter the rows against a query string. Three client-side
owners of filter state build that query string and keep the last
successful answer:

- the markets hook `useMarketFilters`;
- the events hook `useEventFilters`;
- the home page.

Two table components sort and paginate the rows. They use a
three-state sort toggle (descending, ascending, off), fifty rows per page,
and an expand/collapse set for events. `lib/utils.ts` holds the number
formatters and the volume-to-liquidity colour scale.

This project models that pipeline and proves what each stage promises:

- `common.dfy`: shared vocabulary. `Option`, upper bounds with `Infinity`,
  database query results and the routes' JSON response, and the client's
  fetch outcome.
- `seqs.dfy`, `text.dfy`: JavaScript's `Array.filter`/`map`, and
  `toLowerCase`/`includes` on strings.
- `query_params.dfy`: `URLSearchParams` as the hooks use it. Appends go
  at the end and `get` returns the first value under a name. The module
  also gives the routes' reading of a value: `parseFloat(x || '0')`,
  `parseFloat(x || 'Infinity')`, `x === 'true'`, and `search` lowered or
  `''`.
- `deadline.dfy`: the routes' `isEndingSoon` seven-day window.
- `markets_route.dfy`, `events_route.dfy`: the two `GET` handlers. This
  covers the column renaming, the success and error paths, grouping by
  event (a loop over a map, as `reduce` builds it), attaching markets,
  the filter, and the events route's narrowing of an event's markets to
  those matching the search.
- `market_filters_hook.dfy`, `event_filters_hook.dfy`, `home_page.dfy`:
  the three filter owners as classes whose fields are the React state.
  Each one states which parameters it appends, in source order, and what
  the route then parses from them.
- `table_engine.dfy`: the behaviour both table components share. This is
  the sort toggle, a stable sort (the comparator returns 0 on equal keys,
  so `Array.prototype.sort` keeps their order), and paging.
- `market_table.dfy`, `event_market_table.dfy`: the two table
  components as classes.
- `utils.dfy`: `calculateVLR`, `getVLRColorClass` and the formatters.

The model keeps the inconsistencies between the client and the routes as
they are written:

- The markets hook sends `minYesPrice`/`maxYesPrice`/`minNoPrice`/`maxNoPrice`,
  but the route reads `minOutcomeYesPrice` and the like. The price
  sliders therefore never reach the route.
- The markets hook sends a 24-hour volume cap only below 1,000,000, while
  its slider's default is 10,000,000.
- The home page sends `minVolume1wk`, `minVolume1mo`, `minVolume1yr` and
  `featured`, which the events route never reads.
- The table component's colour scale differs from the one in
  `lib/utils.ts`.
- `formatVolume` and `formatCurrency` cut over at different thresholds.

## Model

| member | source | states |
|---|---|---|
| Bounds.DefaultRange | app/api/markets/route.ts:72-73 | with the defaults `0` and `Infinity`, a value is in range exactly when it is non-negative |
| Store.Succeed | app/api/markets/route.ts:109-113 | a success response carries the rows and a count equal to their number |
| ClientState.AfterFetch | hooks/useMarketFilters.ts:64-75 | the held rows are replaced by the answer's data only when the answer reports success; a failed fetch or a failure answer keeps them |
| Deadline.EndingSoonWindow | app/api/markets/route.ts:60-65 | a market is ending soon exactly when its end lies between now and seven days from now, both ends included |
| Deadline.EndingSoonBoundaries | app/api/events/route.ts:45-50 | an end exactly seven days ahead, or exactly now, counts; a hundredth of a day past either edge does not |
| Text.Lower | app/api/markets/route.ts:88 | lowering keeps the length, turns each ASCII capital into its small letter (code point + 32), and keeps every other character |
| Text.LowerCaseInsensitive | app/api/markets/route.ts:103 | two strings of one length lower to the same string exactly when they differ only in the case of ASCII letters |
| Text.LowerIdempotent | app/api/markets/route.ts:103 | lowering an already lowered title changes nothing |
| Text.IncludesIff | app/api/markets/route.ts:103 | `includes` holds exactly when the needle occurs at some position of the haystack |
| Text.IncludesEmpty | app/api/events/route.ts:122 | every string includes the empty search |
| Text.IncludesChars | app/api/events/route.ts:123 | every character of an included needle occurs in the haystack |
| QueryParams.SearchParams.constructor | hooks/useMarketFilters.ts:39 | a new parameter list is empty |
| QueryParams.SearchParams.Append | hooks/useMarketFilters.ts:41-63 | `append` adds one entry at the end and keeps the earlier ones |
| QueryParams.GetFirst | app/api/markets/route.ts:72-88 | `get` finds nothing exactly when no entry has the name; otherwise it returns the value of an entry with that name |
| QueryParams.AppendedSnoc | hooks/useMarketFilters.ts:41-63 | conditional appends in a fixed order compose: one more name adds exactly its own entry, if any, at the end |
| QueryParams.AppendIf | hooks/useEventFilters.ts:31-42 | one `if (…) params.append(…)` step extends the entries to the next name of the order |
| QueryParams.AppendRange | hooks/useEventFilters.ts:31-32 | the two appends of one slider (minimum when above 0, maximum when below its cap) extend the entries by two names of the order |
| QueryParams.AppendFlag | hooks/useEventFilters.ts:40-41 | a flag appends `'true'` under its name exactly when it is set |
| QueryParams.AppendText | app/page.tsx:32-39 | a text filter or the search is appended exactly when it is non-empty |
| QueryParams.GetAppended | app/api/events/route.ts:57-65 | reading a name back from the appended entries gives what its append chose, or nothing for names outside the order |
| QueryParams.AppendedInOrder | hooks/useMarketFilters.ts:41-63 | the names sent appear in source order and are exactly the names whose condition held |
| QueryParams.AppendedNothing | hooks/useEventFilters.ts:31-42 | when no condition holds, the query string is empty |
| QueryParams.ReadLower | app/api/markets/route.ts:72 | a missing or empty minimum reads as 0, and a number is read back as itself |
| QueryParams.ReadUpper | app/api/markets/route.ts:73 | a missing or empty maximum reads as no bound, and a number is read back as itself |
| QueryParams.ReadSearch | app/api/markets/route.ts:88 | a missing search reads as the empty string, and a text is read as itself |
| QueryParams.GetKept | app/api/markets/route.ts:72-88 | dropping parameters the route does not read leaves the value of every name it does read |
| QueryParams.LowerRoundTrip | hooks/useMarketFilters.ts:41 | a slider minimum is sent exactly when above 0, and the route reads back the minimum, or 0 when it was not sent |
| QueryParams.UpperRoundTrip | hooks/useMarketFilters.ts:42 | a slider maximum is sent exactly when below its cap, and the route reads it back as that bound, or as no bound |
| QueryParams.TextLowerRoundTrip | app/page.tsx:32 | a text minimum is read as 0 when empty and as `parseFloat` of the text otherwise |
| QueryParams.FlagRoundTrip | hooks/useMarketFilters.ts:59-62 | a flag is sent exactly when set, and the route's `=== 'true'` reads it back unchanged |
| QueryParams.TextRoundTrip | hooks/useMarketFilters.ts:63 | the search is sent exactly when non-empty, and the route reads it back unchanged |
| MarketsRoute.TransformDbMarket | app/api/markets/route.ts:9-37 | the market's `totalVolume` is the row's `volume`, and every column the filter and the table read is copied from its own column |
| MarketsRoute.TransformIsRenaming | app/api/markets/route.ts:9-37 | the transform is a bijective renaming of the columns: nothing is lost or invented |
| MarketsRoute.FetchMarkets | app/api/markets/route.ts:39-58 | a database error or a throw gives no markets; otherwise one market per row, in the database's order, each the row renamed; an absent row list counts as empty |
| MarketsRoute.ParseQuery | app/api/markets/route.ts:72-88 | an empty query string gives the unbounded, flag-free, search-free query |
| MarketsRoute.ParseQueryReadsOnly | app/api/markets/route.ts:72-88 | the route's query depends only on the seventeen names it reads |
| MarketsRoute.GetNeverFails | app/api/markets/route.ts:90-113 | the markets route always answers with success, because database errors already became an empty list; its count is the number of markets returned |
| MarketsRoute.FilterMarketsSubsequence | app/api/markets/route.ts:92-107 | the filter keeps a subsequence of the markets, in their order |
| MarketsRoute.FilterMarketsWithinBounds | app/api/markets/route.ts:93-98 | every kept market lies within all six numeric ranges, both ends included |
| MarketsRoute.FilterMarketsFlags | app/api/markets/route.ts:99-102 | a kept market is new, featured, negative-risk or ending soon whenever the query asks for that |
| MarketsRoute.FilterMarketsSearch | app/api/markets/route.ts:103 | with a non-empty search, a kept market's lowered title includes the lowered search; a market passing the other criteria is kept exactly when it does |
| MarketsRoute.FilterMarketsIdempotent | app/api/markets/route.ts:92-107 | filtering twice keeps what filtering once keeps |
| MarketsRoute.NoParametersKeepsValidMarkets | app/api/markets/route.ts:72-88 | with no parameters every market with non-negative metrics is kept |
| EventsRoute.TransformDbEvent | app/api/events/route.ts:9-24 | the id, title, end date, `new` flag and the three metrics the filter reads are copied from their own columns |
| EventsRoute.TransformDbMarket | app/api/events/route.ts:26-43 | the event id, question, group title, metrics and prices are copied from their own columns |
| EventsRoute.TransformsAreRenamings | app/api/events/route.ts:9-43 | both transforms are bijective renamings of the columns |
| EventsRoute.GroupStep | app/api/events/route.ts:99-105 | one `reduce` step keeps the grouping invariant: keys are the event ids seen, and each key holds that event's markets in order |
| EventsRoute.GroupMarketsByEvent | app/api/events/route.ts:99-105 | the map's keys are exactly the event ids some market names, and each holds exactly that event's markets in their original order |
| EventsRoute.AttachPlacesMarkets | app/api/events/route.ts:108-111 | each event keeps its fields and receives exactly its own markets, or none when no market names it |
| EventsRoute.ParseQuery | app/api/events/route.ts:57-65 | an empty query string gives the unbounded, flag-free, search-free query |
| EventsRoute.ParseQueryReadsOnly | app/api/events/route.ts:57-65 | the route's query depends only on the nine names it reads; `featured` and `negRisk` are not among them |
| EventsRoute.FilterEvents | app/api/events/route.ts:114-141 | keeps, in order, the events passing every criterion, each narrowed to its matching markets when only markets match the search |
| EventsRoute.Get | app/api/events/route.ts:52-154 | the handler answers with the filter's result when both queries succeed, and with the matching failure message when either errors or throws |
| EventsRoute.GetCountIsLength | app/api/events/route.ts:143-147 | a success answer's count is its number of events, and success happens exactly when both database queries return rows |
| EventsRoute.FilterEventsSubsequence | app/api/events/route.ts:114-141 | the kept events are a subsequence of the events, and each kept event's markets are a subsequence of its own |
| EventsRoute.FilterEventsWithinBounds | app/api/events/route.ts:115-119 | every kept event lies within the three numeric ranges, and is new or ending soon whenever asked |
| EventsRoute.SearchExcludes | app/api/events/route.ts:122-129 | with a non-empty search, an event passing the other criteria is dropped exactly when neither its title nor any of its markets' question or group title matches |
| EventsRoute.SearchNarrows | app/api/events/route.ts:131-137 | a kept event keeps its fields; its markets stay as they are when the title matches or there is no search, and are cut to the matching ones otherwise |
| MarketFiltersHook.Changed | hooks/useMarketFilters.ts:82-84 | a change sets exactly the one slider or flag it names and leaves every other filter as it was |
| MarketFiltersHook.InitialSendsNothing | hooks/useMarketFilters.ts:23-63 | with the initial filters and no search, no parameter is sent |
| MarketFiltersHook.GetParams | hooks/useMarketFilters.ts:41-63 | the value the query string holds under each name is what the hook's conditions choose for it |
| MarketFiltersHook.ParamsInOrder | hooks/useMarketFilters.ts:41-63 | the names sent appear in the source's order |
| MarketFiltersHook.VolumeParamsSent | hooks/useMarketFilters.ts:41-48 | the query string carries each volume bound exactly as chosen |
| MarketFiltersHook.LiquidityAndPriceParamsSent | hooks/useMarketFilters.ts:50-57 | the query string carries the liquidity and price bounds exactly as chosen |
| MarketFiltersHook.FlagParamsSent | hooks/useMarketFilters.ts:59-63 | the query string carries the flags and the search exactly as chosen |
| MarketFiltersHook.OutcomePriceParamsAbsent | hooks/useMarketFilters.ts:53-57 | `minOutcomeYesPrice` and its three siblings are never in the query string |
| MarketFiltersHook.RouteReceives | app/api/markets/route.ts:72-88 | the route parses the volume and liquidity bounds (a bound at its default as no bound), the flags and the search, and never the price bounds |
| MarketFiltersHook.Volume24hrCapLost | hooks/useMarketFilters.ts:25-45 | a 24-hour cap of 5,000,000, below the slider's default of 10,000,000, reaches the route as no bound |
| MarketFiltersHook.AppendSliderParams | hooks/useMarketFilters.ts:41-57 | the twelve slider appends leave exactly the entries the first twelve names choose |
| MarketFiltersHook.AppendFlagParams | hooks/useMarketFilters.ts:59-62 | the four flag appends extend the entries to the first sixteen names |
| MarketFiltersHook.BuildParams | hooks/useMarketFilters.ts:39-63 | the built query string is the specified parameter list |
| MarketFiltersHook.MarketFilters.constructor | hooks/useMarketFilters.ts:20-34 | no markets, loading, empty search, initial filters |
| MarketFiltersHook.MarketFilters.SetSearchQuery | hooks/useMarketFilters.ts:22 | only the search changes |
| MarketFiltersHook.MarketFilters.HandleFilterChange | hooks/useMarketFilters.ts:82-84 | only the named filter changes |
| MarketFiltersHook.MarketFilters.ClearFilters | hooks/useMarketFilters.ts:86-99 | the filters return to their initial values, and the search and markets stay |
| MarketFiltersHook.MarketFilters.FetchMarkets | hooks/useMarketFilters.ts:36-76 | the request carries the parameters of the current filters and search; the markets become the answer's data on success and stay otherwise; loading ends false |
| MarketFiltersHook.MarketFilters.AwaitResponse | hooks/useMarketFilters.ts:64-75 | success replaces the markets, anything else keeps them, and `finally` clears loading |
| EventFiltersHook.Changed | hooks/useEventFilters.ts:61-63 | a change sets exactly the one slider or flag it names |
| EventFiltersHook.InitialSendsNothing | hooks/useEventFilters.ts:18-42 | with the initial filters and no search, no parameter is sent |
| EventFiltersHook.GetParams | hooks/useEventFilters.ts:31-42 | the value under each name is what the hook chooses for it |
| EventFiltersHook.ParamsInOrder | hooks/useEventFilters.ts:31-42 | the names sent appear in the source's order |
| EventFiltersHook.BoundParamsSent | hooks/useEventFilters.ts:31-38 | the query string carries each bound exactly as chosen |
| EventFiltersHook.FlagParamsSent | hooks/useEventFilters.ts:40-42 | the query string carries the flags and the search exactly as chosen |
| EventFiltersHook.RouteReceives | app/api/events/route.ts:57-65 | the events route parses every bound, flag and the search the hook holds (a bound at its default as no bound) |
| EventFiltersHook.RouteReceivesWithinDefaults | hooks/useEventFilters.ts:18-38 | with non-negative minima, the route's minima equal the sliders', and a maximum left at its default reaches the route as no bound |
| EventFiltersHook.ClearedQueryIsUnbounded | hooks/useEventFilters.ts:65-73 | after clearing, the route applies no bound and no flag, only the search |
| EventFiltersHook.AppendSliderParams | hooks/useEventFilters.ts:31-38 | the six slider appends leave exactly the entries the first six names choose |
| EventFiltersHook.AppendFlagAndSearchParams | hooks/useEventFilters.ts:40-42 | the flag and search appends complete the entries of all nine names |
| EventFiltersHook.BuildParams | hooks/useEventFilters.ts:29-42 | the built query string is the specified parameter list |
| EventFiltersHook.EventFilters.constructor | hooks/useEventFilters.ts:15-24 | no events, loading, empty search, initial filters |
| EventFiltersHook.EventFilters.SetSearchQuery | hooks/useEventFilters.ts:17 | only the search changes |
| EventFiltersHook.EventFilters.HandleFilterChange | hooks/useEventFilters.ts:61-63 | only the named filter changes |
| EventFiltersHook.EventFilters.ClearFilters | hooks/useEventFilters.ts:65-73 | the filters return to their initial values |
| EventFiltersHook.EventFilters.FetchEvents | hooks/useEventFilters.ts:26-55 | the request carries the current filters' parameters; the events become the answer's data on success only; loading ends false |
| EventFiltersHook.EventFilters.AwaitResponse | hooks/useEventFilters.ts:44-54 | success replaces the events, anything else keeps them, and `finally` clears loading |
| HomePage.Changed | app/page.tsx:58-60 | a change sets exactly the one text field or flag it names |
| HomePage.InitialSendsNothing | app/page.tsx:17-39 | with the initial filters and no search, no parameter is sent |
| HomePage.GetParams | app/page.tsx:32-39 | the value under each name is what the page chooses for it |
| HomePage.ParamsInOrder | app/page.tsx:32-39 | the names sent appear in the source's order |
| HomePage.TextParamsSent | app/page.tsx:32-36 | the query string carries each minimum text exactly as chosen |
| HomePage.FlagParamsSent | app/page.tsx:37-39 | the query string carries the flags and the search exactly as chosen |
| HomePage.UnsentParams | app/page.tsx:32-39 | a maximum, a liquidity bound or `endingSoon` is never in the query string |
| HomePage.RouteReceives | app/api/events/route.ts:57-65 | the route parses the total and 24-hour minima (empty as 0) and the new flag, with no maximum and no liquidity bound |
| HomePage.IgnoredByRoute | app/page.tsx:34-38 | the week, month and year minima and the featured flag make no difference to the route's query |
| HomePage.AppendTextParams | app/page.tsx:32-36 | the five text appends leave exactly the entries the first five names choose |
| HomePage.AppendFlagAndSearchParams | app/page.tsx:37-39 | the flag and search appends complete the entries of all eight names |
| HomePage.BuildParams | app/page.tsx:30-39 | the built query string is the specified parameter list |
| HomePage.Home.constructor | app/page.tsx:14-25 | no events, loading, empty search, empty text filters and unset flags |
| HomePage.Home.SetSearchQuery | app/page.tsx:16 | only the search changes |
| HomePage.Home.HandleFilterChange | app/page.tsx:58-60 | only the named filter changes |
| HomePage.Home.ClearFilters | app/page.tsx:62-72 | every text filter becomes empty and every flag unset |
| HomePage.Home.FetchEvents | app/page.tsx:27-52 | the request carries the current filters' parameters; the events become the answer's data on success only; loading ends false |
| HomePage.Home.AwaitResponse | app/page.tsx:41-51 | success replaces the events, anything else keeps them, and `finally` clears loading |
| SortToggle.NextSortTransitions | components/MarketTable.tsx:68-82 | a click on another column sorts it descending; on the descending column it turns ascending; on the ascending column sorting switches off; column and direction stay set together |
| SortToggle.ThreeClicksCycle | components/EventMarketTable.tsx:77-90 | three clicks on one column go descending, ascending, unsorted |
| StableSort.Compare | components/MarketTable.tsx:99-101 | the comparator is negative exactly when the first row comes first in the chosen direction, positive when the second does, and zero on equal keys |
| StableSort.InsertPermutes | components/MarketTable.tsx:87-102 | inserting a row keeps the rows as a multiset |
| StableSort.InsertOrdered | components/MarketTable.tsx:87-102 | inserting into an ordered list keeps it ordered |
| StableSort.InsertStable | components/MarketTable.tsx:87-102 | insertion keeps the relative order of rows with equal keys |
| StableSort.SortPermutes | components/MarketTable.tsx:87-102 | the sorted rows are a permutation of the rows |
| StableSort.SortOrdered | components/MarketTable.tsx:87-102 | the sorted rows are ordered by the key in the chosen direction |
| StableSort.SortStable | components/MarketTable.tsx:87-102 | rows with equal keys keep their original relative order |
| StableSort.SortOrderedUnchanged | components/MarketTable.tsx:87-102 | rows already ordered come back unchanged |
| StableSort.SortIdempotent | components/MarketTable.tsx:87-102 | sorting a sorted view changes nothing |
| StableSort.ViewProperties | components/MarketTable.tsx:84-103 | the view is a permutation of the rows, the rows themselves when no sort is active, and ordered when one is |
| StableSort.ViewStable | components/EventMarketTable.tsx:92-114 | the active sort keeps the rows sharing any one key value in their original order |
| Paging.TotalPages | components/MarketTable.tsx:106 | the page count is the least number of fifty-row pages covering the rows |
| Paging.SliceIndex | components/MarketTable.tsx:112 | `slice` clamps an index to the rows, counting negative indices from the end |
| Paging.PageContents | components/MarketTable.tsx:109-113 | a page holds at most fifty rows, row i of page p being row (p-1)*50+i, and exactly fifty when the rows reach the page's end |
| Paging.PageNonEmptyIff | components/EventMarketTable.tsx:116-122 | a page from 1 on is non-empty exactly when it is at most the page count |
| Paging.NonPositivePages | components/MarketTable.tsx:109-113 | page 0 is empty, and a negative page slices from the end as `slice` does |
| Paging.PagesPrefix | components/MarketTable.tsx:109-113 | the first k pages together are the first 50k rows |
| Paging.PagesCoverAll | components/MarketTable.tsx:106-113 | all pages together are exactly the rows |
| MarketTableComponent.KeyValue | components/MarketTable.tsx:91-97 | the end-date column compares timestamps, and the volume column the total volume |
| MarketTableComponent.MarketTable.constructor | components/MarketTable.tsx:63-65 | page 1, unsorted |
| MarketTableComponent.MarketTable.SortedMarkets | components/MarketTable.tsx:84-103 | a permutation of the markets, unchanged when unsorted, ordered by the active column otherwise, with rows of equal key in their original order |
| MarketTableComponent.MarketTable.TotalPages | components/MarketTable.tsx:106 | enough fifty-row pages for all markets and no more |
| MarketTableComponent.MarketTable.CurrentMarkets | components/MarketTable.tsx:109-113 | at most fifty rows, taken in order from the sorted view at the current page's offset |
| MarketTableComponent.MarketTable.HandleSort | components/MarketTable.tsx:68-82 | the toggle advances one step, the page returns to 1, and the markets stay |
| MarketTableComponent.MarketTable.ReceiveMarkets | components/MarketTable.tsx:115-118 | new markets reset the page to 1 exactly when their number changes |
| MarketTableComponent.MarketTable.ChangePage | components/MarketTable.tsx:109-113 | only the page changes |
| EventMarketTableComponent.KeyValue | components/EventMarketTable.tsx:99-108 | the ratio column compares `calculateVLR` (0 without liquidity), and the end-date column timestamps |
| EventMarketTableComponent.TableVlrColorBuckets | components/EventMarketTable.tsx:53-58 | green below 10, yellow below 50, orange below 150, red from 150 |
| EventMarketTableComponent.TableVlrColorMonotone | components/EventMarketTable.tsx:53-58 | a larger ratio never gets a milder colour |
| EventMarketTableComponent.ToggledFlipsOne | components/EventMarketTable.tsx:128-138 | toggling flips the one event's membership, leaves every other event, and undoes itself |
| EventMarketTableComponent.EventMarketTable.constructor | components/EventMarketTable.tsx:71-74 | page 1, unsorted, nothing expanded |
| EventMarketTableComponent.EventMarketTable.SortedEvents | components/EventMarketTable.tsx:92-114 | a permutation of the events, unchanged when unsorted, ordered by the active column otherwise, with rows of equal key in their original order |
| EventMarketTableComponent.EventMarketTable.TotalPages | components/EventMarketTable.tsx:116 | enough fifty-row pages for all events and no more |
| EventMarketTableComponent.EventMarketTable.CurrentEvents | components/EventMarketTable.tsx:118-122 | at most fifty rows, in order, from the sorted view at the current page's offset |
| EventMarketTableComponent.EventMarketTable.HandleSort | components/EventMarketTable.tsx:77-90 | the toggle advances one step, the page returns to 1, and events and expansions stay |
| EventMarketTableComponent.EventMarketTable.ReceiveEvents | components/EventMarketTable.tsx:124-126 | new events reset the page to 1 exactly when their number changes |
| EventMarketTableComponent.EventMarketTable.ChangePage | components/EventMarketTable.tsx:118-122 | only the page changes |
| EventMarketTableComponent.EventMarketTable.ToggleEvent | components/EventMarketTable.tsx:128-138 | the expanded set becomes the toggled set, and nothing else changes |
| Utils.CalculateVlr | lib/utils.ts:43-46 | 0 without liquidity, and otherwise the ratio times the liquidity is the volume; non-negative for non-negative inputs |
| Utils.VlrColorBuckets | lib/utils.ts:48-54 | red exactly at 0; orange below 0.1 or from 20; yellow from 0.1 below 3; green from 3 below 20 |
| Utils.VlrColorNotMonotone | lib/utils.ts:48-54 | orange comes both below yellow and above green on this scale |
| Utils.FormatVolume | lib/utils.ts:8-14 | `$0` exactly for zero; otherwise a mantissa that, times its suffix's divisor, is the value |
| Utils.FormatVolumeSuffix | lib/utils.ts:8-14 | B from 1,000,000,000, M from 1,000,000, K from 1,000, and no suffix below (thresholds inclusive) |
| Utils.FormatCurrency | lib/utils.ts:16-21 | always a mantissa that, times its suffix's divisor, is the value |
| Utils.FormatCurrencySuffix | lib/utils.ts:16-21 | B above 1,000,000,000, M above 1,000,000, K above 1,000 (thresholds exclusive); an M or K mantissa is above 1 and at most 1,000 |
| Utils.FormattersDisagreeAtThresholds | lib/utils.ts:8-21 | at exactly 1,000,000 and 1,000 the two formatters choose different suffixes |
| Utils.FormatPercentage | lib/utils.ts:23-26 | a `+` sign exactly for non-negative values, and the percentage is the value times 100 |

## Left out

- Dates and JavaScript numbers: `end_date` is a string the source parses with `new Date(...)`; the model takes it as an already parsed timestamp in milliseconds. An unparsable date (NaN, so `isEndingSoon` is false and the sort comparator returns 0 against every row) is not modelled. Numbers are exact reals, so floating-point rounding of `volume / liquidity` near the colour thresholds, and null or NaN metric columns in the comparisons, are not modelled.
- Number parsing: `parseFloat` is a parameter of the routes' parsing, and a number the client appends is read back as that number. `NaN`, and text that does not parse, are not modelled.
- Case folding: `toLowerCase` is modelled on ASCII letters only; Unicode case mapping is not.
- Text rendering: the digits produced by `toFixed`, and `formatPrice` and `formatDate`, are not modelled. The formatters are modelled as a mantissa and a suffix.
- Component formatters: `MarketTable`'s unsigned `formatPercentage` and the table components' copies of `formatCurrency` are not separate members. They match the `lib/utils.ts` ones apart from the missing sign.
- Concurrency: a fetch is modelled as building the parameters and then awaiting one outcome. Overlapping fetches, races between responses and the moment `loading` is true are not modelled.
- Fetch triggers: a fetch runs on mount and on `applyFilters`. `applyFilters` is the fetch method itself (`FetchMarkets`/`FetchEvents`) and not a separate member.
- Rendering: JSX, the UI components, `activeTab` and the dashboard section layout are not part of this model.
- Data files: mock data and the type declarations in `lib/types.ts` are not part of this model. The records are datatypes with the fields the core reads.
- Database and environment: Supabase and the environment keys become a query result given as a parameter, and the clock is a `now` parameter in milliseconds. `console.error` logging is not modelled.
- HomePage.Home.HandleFilterChange: the untyped `key`/`value` pair is modelled as a typed change that names an existing filter. A key naming no filter, or a value of the wrong type, is not modelled. The same holds for the two hooks' `HandleFilterChange`.
- QueryParams.ReadSearch: a numeric value under `search` reads as the empty string. The client only ever appends text there.
- MarketTableComponent.MarketTable.ChangePage: any integer is accepted, as `setCurrentPage` accepts it. Only the page's contents for pages from 1 on are specified in full.
- EventsRoute.FilterEvents: the source narrows an event's markets by mutating the event inside `filter`. The model returns a narrowed copy, with the same result.
