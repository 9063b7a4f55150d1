# COVID-19 dashboard: a Dafny model of its client logic and data service

The dashboard shows a world map of COVID-19 figures for one day at a time, with a
timeline to move between days, a popup with a country's figures, and global
totals. Two parts of it are modelled here:

- **The browser script** (`static/js/dashboard.js`):
  - how a map shape's name is matched to a country record, through case-folding, trimming and a fixed table of name variations;
  - how a map shape is coloured, with a threshold scale over cases per million and grey when no record carries the shape's numeric id;
  - where the popup is placed;
  - the timeline's state machine: the date list, the current date, the picker, the prev/next buttons, the current snapshot and the error banner;
  - the nearest-date reduce and the error message `fetchWithError` raises.
- **The data service** (`backend/services/data_service.py`):
  - loading the OWID CSV, which keeps sovereign states, fills missing numbers with 0 and cuts off after 2023-12-31;
  - the timeline of distinct days;
  - a day's map data with its severity scores and numeric map ids;
  - global totals;
  - a country's latest figures and 30-day window;
  - the top-ten lists.

## How the model is built

- **Dates.** A date is a day number (`Api.Day`, days since 1970-01-01), so 2023-12-31 is 19722. The records exchanged over HTTP (`MapCountry`, `MapData`, `GlobalStats`) are defined once in `Api` and shared by both sides.
- **The browser state.** The script's module-level variables (`dates`, `currentDate`, `currentMapData`) and the DOM state it writes become the fields of the class `Dashboard.Dashboard`: the picker value, the buttons' `disabled` flags, the statistics panel and the banner.
- **Requests.** Each `await fetchWithError(...)` becomes a method parameter that carries what the request produced, or `Err` when it threw.
- **`loadMapData` when the date is not in the list.** It computes the nearest date, then assigns it to a `const`. That assignment throws a TypeError, which the `catch` turns into the "Failed to load map data" banner. The snapshot and the current date stay as they were. The model does exactly this; `Timeline.ClosestDate` is the reduce it computes first.
- **The data service state.** The frame becomes a sequence of rows, held as a field of the class `DataService.Service` together with the date list. Every pandas step is a filter, a sum, a stable sort, a take or a map over that sequence.
- **The numeric-id table.** `country_code_map` becomes `DataService.MapId`, one function per commented section of the dict literal (North America to Oceania). No key occurs twice in the literal, so asking the sections in order gives the dict's answer. `DataServiceFacts.OwnerOf` is the same table read from id to code; the ownership lemmas check every entry against it, which is how the model knows that the 170 ids are distinct.
- **Exceptions.** An exception the service raises becomes `Err` with the Python message. This covers:
  - a `KeyError` for a missing `iso_code` or `location` column;
  - the `ValueError` listing the other missing columns;
  - the `IndexError` of `self.date_strings[0]` when no row survives loading;
  - the `IndexError` of `iloc[0]` when a day has rows but none with ten cases;
  - formatting a missing latest date when the frame is empty;
  - "Country X not found".
- **`get_country_data` padding.** It pads a country that has fewer than 30 rows with `pd.date_range(end=<earliest day>, ...)`. The padding therefore ends on the country's earliest day itself, and that day appears twice: once with zero counts and once with its real counts. The model does the same, and `DataServiceFacts.PaddingRepeatsEarliestDay` states it.
- **Grey shapes.** A shape is grey only when no record carries its id (`static/js/dashboard.js:369`). A zero-case record would take the lowest colour, but `get_map_data` sends no row with fewer than ten cases (`backend/services/data_service.py:112-113`).
- **Missing numeric ids.** 26 of the 192 sovereign codes have no entry in the numeric-id table: ATG, BHS, BRB, BLR, BLZ, CRI, CIV, CUB, DMA, DOM, SLV, GRD, GTM, HTI, HND, JAM, JPN, PRK, KOR, NIC, PAN, KNA, LCA, VCT, TWN and TTO. Their records keep the alpha-3 code, so no map shape carries their id and `SeverityScale.FeatureFill` colours them grey. This comes from reading the two tables side by side and is not proved in the model.

## Model

| member | source | states |
|---|---|---|
| `CountryNames.LowerChar` | static/js/dashboard.js:149-150 | each ASCII capital becomes its own lower-case letter, the result has no ASCII capital, and every other character is unchanged |
| `CountryNames.ToLower` | static/js/dashboard.js:149-150 | lower-casing keeps the length and maps each character on its own |
| `CountryNames.TrimStartShape` | static/js/dashboard.js:149-150 | trimming the front leaves a suffix that does not start with whitespace, and what it drops is all whitespace |
| `CountryNames.TrimEndShape` | static/js/dashboard.js:149-150 | trimming the back leaves a prefix that does not end with whitespace, and what it drops is all whitespace |
| `CountryNames.TrimShape` | static/js/dashboard.js:149-150 | `trim()` leaves a result that is empty or has no whitespace at either end, made only of characters of the input |
| `CountryNames.NormalizeShape` | static/js/dashboard.js:149-150 | a normalised name is empty or has no whitespace at either end, and holds no ASCII capital |
| `CountryNames.TrimStartSkipsSpace` | static/js/dashboard.js:149-150 | leading whitespace makes no difference to trimming the front |
| `CountryNames.TrimEndSkipsSpace` | static/js/dashboard.js:149-150 | trailing whitespace makes no difference to trimming the back |
| `CountryNames.TrimStartKeepsTail` | static/js/dashboard.js:149-150 | trimming the front of a name that is not all blank keeps what follows it |
| `CountryNames.TrimIgnoresPadding` | static/js/dashboard.js:149-150 | `trim()` gives the same result with or without surrounding whitespace |
| `CountryNames.ToLowerConcat` | static/js/dashboard.js:149-150 | lower-casing distributes over concatenation |
| `CountryNames.NormalizeIgnoresCaseAndPadding` | static/js/dashboard.js:149-150 | normalised names do not depend on surrounding whitespace or on letter case |
| `CountryNames.ToLowerFixed` | static/js/dashboard.js:149-150 | a name without capitals is its own lower case |
| `CountryNames.TrimFixed` | static/js/dashboard.js:149-150 | a name with no whitespace at either end is its own trim |
| `CountryNames.NormalizeIdempotent` | static/js/dashboard.js:149-150 | normalising twice is normalising once |
| `CountryNames.VariationScanSpec` | static/js/dashboard.js:153-179 | the loop over the variation table accepts exactly when some entry links the two names, in either role |
| `CountryNames.NamesMatchSpec` | static/js/dashboard.js:147-182 | two names match exactly when they normalise to the same text or some entry of the variation table links them, in either role |
| `CountryNames.NamesMatchSymmetric` | static/js/dashboard.js:147-182 | the matcher gives the same answer with the map name and the data name swapped |
| `CountryNames.NamesMatchIgnoresCaseAndSpace` | static/js/dashboard.js:147-182 | on either side, whitespace around a name and letter case do not change whether it matches |
| `CountryNames.CanonicalMatchesVariation` | static/js/dashboard.js:153-178 | "United States" matches "USA" and "U.S.A." through the table |
| `CountryNames.VariationsAreNotCanonical` | static/js/dashboard.js:153-170 | "usa" and "u.s.a." are variations only, never a standard name of the table |
| `CountryNames.VariationsDoNotMatchEachOther` | static/js/dashboard.js:153-178 | two variations of one name ("USA", "U.S.A.") do not match each other: only the standard name links them |
| `CountryNames.UnlistedNameMatchesOnlyItself` | static/js/dashboard.js:170-182 | a name the table does not mention matches, on either side, exactly the names that normalise to the same text |
| `CountryNames.FindFirst` | static/js/dashboard.js:147-182 | the search (`Array.find`) yields the first element satisfying the predicate, or nothing exactly when no element satisfies it |
| `CountryNames.FindCountry` | static/js/dashboard.js:147-182 | with no snapshot nothing is found; otherwise the result is the first matching record, and nothing is found only when no record matches |
| `SeverityScale.BucketIndex` | static/js/dashboard.js:331-338 | the threshold scale's bucket is the number of thresholds at or below the value, so a value equal to a threshold goes to the upper bucket |
| `SeverityScale.BucketIndexMonotone` | static/js/dashboard.js:331-338 | a larger value never falls in a lower bucket |
| `SeverityScale.ThresholdColor` | static/js/dashboard.js:331-338 | the colour is one of the five palette colours |
| `SeverityScale.ThresholdColorBuckets` | static/js/dashboard.js:322-338 | each colour is given exactly for its band: below 10000, [10000, 50000), [50000, 100000), [100000, 200000), and 200000 and above |
| `SeverityScale.ThresholdColorMonotone` | static/js/dashboard.js:331-338 | more cases per million never gives an earlier palette colour |
| `SeverityScale.FirstWithCode` | static/js/dashboard.js:368 | the search finds the first record carrying the shape's id, or reports that none does |
| `SeverityScale.FeatureFill` | static/js/dashboard.js:366-373 | a shape is grey exactly when no record carries its id; otherwise it takes the colour of the first such record's cases per million |
| `PopupPlacement.ClampAxis` | static/js/dashboard.js:270-285 | the position keeps the margin from the start; a popup larger than the container is pinned to the margin; one that fits keeps the margin at the end as well, and stays at the pointer when the pointer allows it |
| `PopupPlacement.PlacePopup` | static/js/dashboard.js:266-288 | on each axis the popup keeps a 10px margin; it is pinned to the margin when it is wider (taller) than the container less both margins; otherwise it is at the click point, pulled back to the far edge less the margin and then up to the margin, and stays at the click point when that already fits |
| `Timeline.IndexOf` | static/js/dashboard.js:427-431 | `indexOf` gives the first position of the date, or -1 when the date is undefined or absent |
| `Timeline.ButtonStates` | static/js/dashboard.js:427-431 | prev is disabled exactly when the current date is the list's first; next exactly when it is the first occurrence of the last date, and also whenever the list is empty |
| `Timeline.ButtonStatesAtEnds` | static/js/dashboard.js:427-431 | on a list without repeats, prev is disabled exactly on the first date and next exactly on the last |
| `Timeline.ClosestDate` | static/js/dashboard.js:461-463 | the reduce returns a listed date at the smallest distance from the target, the earliest such one in list order |
| `Timeline.DistanceIsAbsolute` | static/js/dashboard.js:462 | the distance between two days is their absolute difference: symmetric, and zero only for equal days |
| `Timeline.ClosestDateOfMember` | static/js/dashboard.js:461-463 | a listed date is its own nearest date |
| `Timeline.DecimalString` | static/js/dashboard.js:529 | a status code prints as a non-empty run of digits, without a leading zero, whose decimal value is the status |
| `Timeline.FetchErrorMessage` | static/js/dashboard.js:527-530 | a failed response raises its non-empty `detail`; otherwise exactly "Error fetching " + URL + ": " + the status in decimal + " " + the status text; when the body is not JSON it raises the parse error |
| `Dashboard.Dashboard.constructor` | static/js/dashboard.js:1-3 | the script starts with no dates, no current date and no snapshot |
| `Dashboard.Dashboard.UpdateMap` | static/js/dashboard.js:314-321 | the snapshot becomes the current one and nothing else changes |
| `Dashboard.Dashboard.LoadMapData` | static/js/dashboard.js:446-497 | the snapshot and date become current only for a defined date that the re-fetched list contains and whose snapshot arrives; a date missing from the list fails (empty reduce or const reassignment) and changes neither; the statistics are shown only when their request also succeeds, and every failure sets the banner |
| `Dashboard.Dashboard.UpdateButtonStates` | static/js/dashboard.js:427-431 | the buttons' disabled flags become those of the current date's position and nothing else changes |
| `Dashboard.Dashboard.LoadDates` | static/js/dashboard.js:378-443 | on success the list's last date becomes current, in the picker too, its snapshot is loaded, its statistics are shown when both requests succeed (otherwise the map banner is set), the controls are wired and the buttons agree with the current date; on failure only the banner changes |
| `Dashboard.Dashboard.PickDate` | static/js/dashboard.js:399-406 | the picker takes the picked date; it becomes current only if listed, with its snapshot and statistics loaded as far as the requests succeed and the banner set otherwise; an unlisted date changes nothing else; the current date stays listed and the buttons stay in step |
| `Dashboard.Dashboard.Prev` | static/js/dashboard.js:408-415 | moves to the previous date unless on the first (then nothing changes), loading its snapshot and statistics as far as the requests succeed and setting the banner otherwise; the current date stays listed and the buttons stay in step |
| `Dashboard.Dashboard.Next` | static/js/dashboard.js:417-424 | moves to the next date unless on the last (then nothing changes), loading its snapshot and statistics as far as the requests succeed and setting the banner otherwise; the current date stays listed and the buttons stay in step |
| `Sorting.NonIncreasingAllPairs` | backend/services/data_service.py:127 | in a list sorted by a key in descending order, every earlier element's key is at least every later one's |
| `Sorting.SortDesc` | backend/services/data_service.py:127 | the descending sort returns the same rows, with keys non-increasing |
| `Sorting.SortDescStable` | backend/services/data_service.py:476-478 | the descending sort is stable: the rows sharing one key keep their input order, as `nlargest` with `keep='first'` does |
| `Sorting.TextLessEqTotal` | backend/services/data_service.py:481 | any two names are ordered one way or the other |
| `Sorting.SortText` | backend/services/data_service.py:481 | sorting by location returns the same names in ascending text order |
| `Sums.SumByRemove` | backend/services/data_service.py:372-373 | a column sum is any one row's value plus the sum of the others |
| `Sums.SumByPermutation` | backend/services/data_service.py:372-373 | a column sum does not depend on the order of the rows |
| `Filters.Filter` | backend/services/data_service.py:103 | a mask keeps exactly the elements satisfying its condition, and never more elements than it was given |
| `Filters.FilterAppend` | backend/services/data_service.py:113 | a mask applied to two parts one after another keeps each part's elements in order |
| `Filters.FilterCount` | backend/services/data_service.py:424 | a mask keeps every occurrence of an element that satisfies it and none of one that does not |
| `DataService.MissingColumns` | backend/services/data_service.py:44 | the missing columns are exactly the required columns absent from the header, in the order of the required list (a `Filters.Filter`) |
| `DataService.HeaderError` | backend/services/data_service.py:27-47 | the header raises exactly when some required column is absent |
| `DataService.SovereignRows` | backend/services/data_service.py:27-31 | exactly the rows with a listed ISO code and a location are kept, in order (a `Filters.Filter`) |
| `DataService.CleanRow` | backend/services/data_service.py:52-56 | the text fields are taken as they are, and each numeric cell keeps its value when present and becomes 0 when missing |
| `DataService.CleanRows` | backend/services/data_service.py:52-56 | every row is cleaned, in order |
| `DataService.UntilCutoff` | backend/services/data_service.py:63-64 | exactly the rows dated on or before 2023-12-31 are kept, in order (a `Filters.Filter`) |
| `DataService.SortedDistinct` | backend/services/data_service.py:71-72 | the timeline is strictly ascending and lists exactly the days of the frame |
| `DataService.MaxDate` | backend/services/data_service.py:387 | the latest day is a day of the frame that no row exceeds |
| `DataService.RowsOn` | backend/services/data_service.py:103 | exactly the rows of the given day, in order (a `Filters.Filter`) |
| `DataService.WithMinCases` | backend/services/data_service.py:113 | exactly the rows with at least ten cases, in order (a `Filters.Filter`) |
| `DataService.RowsOf` | backend/services/data_service.py:424 | exactly the rows of the named country, in order (a `Filters.Filter`) |
| `DataService.MaxCasesPerMillion` | backend/services/data_service.py:118 | the day's maximum is one row's figure and no row exceeds it |
| `DataService.Severity` | backend/services/data_service.py:121-124 | the score is 0 when the day's maximum is not positive; otherwise it is the figure as a percentage of the maximum |
| `DataService.CodeFor` | backend/services/data_service.py:327 | `country_code_map.get(iso, iso)`: a code in the numeric-id table becomes its id; any other code is kept as it is |
| `DataService.TopRows` | backend/services/data_service.py:476-478 | at most ten rows, as many as there are when fewer, in non-increasing order |
| `DataService.MinDate` | backend/services/data_service.py:443 | the earliest day is a day of the window that no row precedes |
| `DataService.Padding` | backend/services/data_service.py:440-446 | `n` zero entries on consecutive days, the last on the given day |
| `DataService.LastWindow` | backend/services/data_service.py:436 | the last thirty rows, or all of them when fewer |
| `DataService.DailyWindow` | backend/services/data_service.py:432-446 | always thirty entries: the last rows of the country at the end, zero counts before them |
| `DataService.RankedKeepsOrder` | backend/services/data_service.py:476-478 | projecting rows onto the top-list entry keeps their order by cases and by deaths |
| `DataService.LoadedRowsSound` | backend/services/data_service.py:27-64 | every loaded row is the cleaned form of a raw row with a listed code and a location, dated up to the cutoff |
| `DataService.LoadedRowsComplete` | backend/services/data_service.py:27-64 | every raw row with a listed code and a location, dated up to the cutoff, is loaded |
| `DataService.LoadedRowsSpec` | backend/services/data_service.py:27-64 | a row is loaded exactly when some raw row with a listed code and a location, dated up to the cutoff, cleans to it |
| `DataService.Service.constructor` | backend/services/data_service.py:8-11 | a service starts with no rows and no dates |
| `DataService.Service.LoadData` | backend/services/data_service.py:14-93 | succeeds exactly when every required column is present and some row survives the filters; it then holds the filtered, cleaned rows up to the cutoff and their ascending distinct days; on failure nothing changes |
| `DataService.Service.GetDates` | backend/services/data_service.py:95-96 | the timeline is strictly ascending and lists exactly the days that have rows |
| `DataService.Service.GetMapData` | backend/services/data_service.py:98-341 | fails exactly when the day has rows but none with ten cases; otherwise it answers for the requested day with one entry per qualifying row, in non-increasing severity |
| `DataService.Service.GetGlobalStats` | backend/services/data_service.py:343-420 | fails only for the latest day of an empty frame; answers for the requested day, or the frame's latest day when none is given, with the sums of cases and deaths and the count of that day's rows with at least ten cases |
| `DataService.Service.GetCountryData` | backend/services/data_service.py:422-468 | fails with "Country X not found" exactly when no row has that location; otherwise it reports the country's last row and its 30-day window |
| `DataService.Service.GetTopCountries` | backend/services/data_service.py:470-507 | empty lists for an empty frame; otherwise two lists of at most ten rows from the latest day, by cases and by deaths in non-increasing order, and that day's locations in ascending order |
| `DataServiceFacts.DatesUpToCutoff` | backend/services/data_service.py:63-72 | every timeline day is on or before the cutoff and has a row |
| `DataServiceFacts.MissingFromOnly` | backend/services/data_service.py:44 | with one column absent, the missing list holds exactly that column |
| `DataServiceFacts.RequiredColumnsDistinct` | backend/services/data_service.py:36-41 | the ten required columns are distinct |
| `DataServiceFacts.SingleMissingColumn` | backend/services/data_service.py:44-47 | a header lacking one required column other than `iso_code` and `location` fails with "Missing required columns: ['c']" |
| `DataServiceFacts.QuotedSingleton` | backend/services/data_service.py:47 | Python's list text of one name is the name in quotes and brackets |
| `DataServiceFacts.MissingIsoCodeFirst` | backend/services/data_service.py:27-31 | a missing `iso_code` column raises before any other check |
| `DataServiceFacts.MapEntriesMembers` | backend/services/data_service.py:321-334 | each map entry comes from one of the rows, and every row yields one |
| `DataServiceFacts.MapDataCountries` | backend/services/data_service.py:98-334 | the map lists exactly the day's rows with at least ten cases, each scored against the day's maximum |
| `DataServiceFacts.SeverityWithinRange` | backend/services/data_service.py:121-124 | a severity lies between 0 and 100, and the maximum scores 100 |
| `DataServiceFacts.MapDataSeverities` | backend/services/data_service.py:118-124 | with no negative figures, every severity is a percentage, and either some country scores 100 or all score 0 |
| `DataServiceFacts.MapEntriesSums` | backend/services/data_service.py:321-334 | turning rows into map entries keeps the sums of cases and deaths |
| `DataServiceFacts.GlobalStatsMatchMapData` | backend/services/data_service.py:343-374 | a day's global totals equal the count of that day's map entries and the sums of their cases and deaths |
| `DataServiceFacts.LatestStatsAreLatestDay` | backend/services/data_service.py:386-414 | asking with no date gives the same answer as asking for the latest day |
| `DataServiceFacts.EmptyDayStats` | backend/services/data_service.py:108-110 | a day without rows gives zero totals and an empty map |
| `DataServiceFacts.StatsOfDayWithoutMapEntries` | backend/services/data_service.py:357-374 | on a day whose map request fails (rows, but none with ten cases), the global totals are zero with the requested date |
| `DataServiceFacts.TopRowsSpec` | backend/services/data_service.py:476-478 | the top rows are drawn from the day, and no row left out has a larger key than a selected one |
| `DataServiceFacts.LeftOutRanksLower` | backend/services/data_service.py:476-478 | in a list sorted by a key, every element past the first n ranks no higher than any of the first n |
| `DataServiceFacts.TopCountriesFromLatestDay` | backend/services/data_service.py:470-495 | every top-list entry is a row of the latest day |
| `DataServiceFacts.RankedFrom` | backend/services/data_service.py:483-495 | each top-list entry projects a row of the day |
| `DataService.RowsOfEmpty` | backend/services/data_service.py:422-427 | a country has no rows exactly when no row carries its name |
| `DataServiceFacts.ShortWindow` | backend/services/data_service.py:436-446 | a country with fewer than thirty rows gets padding followed by all of its rows |
| `DataServiceFacts.PaddingRepeatsEarliestDay` | backend/services/data_service.py:438-446 | padding days run consecutively and end on the country's earliest day, which therefore appears twice |
| `DataServiceFacts.PaddingRunsToEarliestDay` | backend/services/data_service.py:438-446 | the padding days of a short window run one after another and end on the earliest day |
| `DataServiceFacts.EarliestDayFollows` | backend/services/data_service.py:436-446 | after the padding, the earliest day comes again with its own row |
| `DataServiceFacts.MapIdOwned` | backend/services/data_service.py:130-312 | every id of the numeric-id table is three ASCII digits, and the reverse table gives it back to the one code that has it, so no two codes of the table share an id |
| `DataServiceFacts.CodeForInjective` | backend/services/data_service.py:130-327 | two different alphabetic codes never get the same map id, so no map shape takes the record of another country; a code's id is numeric exactly when the table lists it |

## Left out

- Fetching and `async` timing (`fetchWithError` makes one request and awaits it), the loading indicator (`showLoading`/`hideLoading`), the close button that `showError` adds, `init`, `testBackend` and `loadGlobalStats`: replies are inputs to the methods, and the shown error is the `banner` field. The interleaving of an awaited handler with its `updateButtonStates` listener is collapsed to one order, which ends in the same state when one handler runs at a time.
- `Dashboard.Dashboard.Valid`: it assumes each handler completes before the next event is handled. Overlapping handlers (two clicks before the first `loadMapData` resolves, with replies arriving in reverse order) are not modelled. They can leave `currentDate` and the map on one date while the picker and the buttons show another.
- D3 and DOM rendering: drawing the map, the legend, highlighting, the popup's HTML and its outside-click close handler (registered through `setTimeout(..., 0)`), and `toLocaleString` formatting. The map's shapes are reduced to their name and numeric id.
- `CountryNames.ToLower`: lower-cases ASCII letters only; JavaScript's `toLowerCase` also folds other Unicode letters.
- `CountryNames.LowerChar`: maps each ASCII capital to its own lower-case letter and leaves every other character alone, so non-ASCII capitals are not folded.
- `DataServiceFacts.CodeForInjective`: it is stated for any two codes that are not themselves three digits, rather than for the 192 sovereign codes. That the sovereign codes are letters holds by their literal and is not proved in the model. A three-digit code outside the table really could collide with an id.
- Date parsing and formatting (`new Date`, `toISOString`, `pd.to_datetime`, `strftime`): dates are day numbers throughout.
- CSV reading and `pd.to_numeric`: a missing or unparsable cell arrives as `None`; numeric columns are integers or reals, with no floating-point rounding and no float-to-int casts.
- `DataService.Service.GetMapData`: the tie order among equal severities is the input order here; pandas' default quicksort does not promise any order for ties.
- `DataService.Service.LoadData`: `__init__` runs the load and lets its exception escape, so a failed load never yields a service. The model keeps the constructor and the load separate and leaves the fields as they were on failure.
- Queries on a service that never loaded: the source raises on its `None` frame, while the model answers as for an empty frame.
- `DataService.Service.GetGlobalStats`: an empty date string counts as no date in the source. Here the date is an `Option`.
- Logging: the statistics `load_data` writes to the log.
- The HTTP router and `main.py`: the mapping of exceptions to 404/500 and the application's start-up.
