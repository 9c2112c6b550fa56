# SteamStatsDumper, modelled in Dafny

SteamStatsDumper logs in to Steam and gets the account's license list. It
resolves every licensed package and its apps through the PICS product-info
service, then counts owned apps per day. The counts are split into free and
paid, and by app type. The result is written as a CSV of daily and
cumulative counts.

This project models the logic of that pipeline and proves properties of it:

- **License aggregation** (`Program.Main`), in `aggregation.dfy`:
  - Licenses that are not expired are visited in ascending creation time.
  - Family-sharing licenses are skipped.
  - Each package is classified free or paid.
  - Every app is counted at most once per partition (free or paid). A
    counted app bumps two counter keys, in its day's `Entries` and in
    `totals`.
  - The function `Aggregation.Run` is the reference definition: a left fold
    of one loop iteration (`Step`). The method `Aggregation.Aggregate`
    performs the loop itself, in place, and is proved to compute `Run`.
  - `aggregation_props.dfy` proves what the fold guarantees.
- **The numbers of `OutputCSV`**, in `csv_output.dfy`:
  - The method `CsvOutput.CumulativeRows` performs the header loop and the
    nested day/key loop, with the running dictionary `cums`.
  - It is proved to produce each day's count and the prefix sum of each key.
- **The metadata caches of `PICSConnection`**, in `pics_connection.dfy`:
  - The class `PicsConnection.Connection` holds the fields `packages`,
    `apps`, `tokens` and the `PICSReady` result. Its methods are the
    overloads of `UpdatePackages` and `UpdateApps`, plus `GetTokens` and
    `OnLicenseList`.
  - The SteamKit calls are the two total functions of a `Catalog`; `None`
    stands for a call that throws.
  - Each method is proved against a function over the caches
    (`FetchPackages`, `StorePackages`, `FetchApps`, `StoreApps`,
    `FetchTokens`). These functions also return the list of requests made,
    in order. The methods keep that list in a ghost field.
  - The token round can call the app round back without bound, so every
    round carries a `fuel` argument, spent on each refetch.
  - `pics_connection_props.dfy` proves what the rounds request and store.
- **The record constructors** `PICSInfo`, `PICSPackageInfo` and
  `PICSAppInfo`, as functions over an abstract KeyValue tree
  (`keyvalues.dfy`, `pics_info.dfy`). Writers turn records back into trees,
  so the constructors can be proved to lose nothing.
- **The rollups** `TypeInfo` (TypeInfo.cs) and `AllInfo` (AllInfo.cs), computed on read
  as sums over day records (`rollups.dfy`).

`DayInfo.cs` and `AllInfo.cs` both declare a class `AllInfo`:

- The shape of `DayInfo.cs`, the one `Main` builds, is `Aggregation.DailyReport`.
- The shape of `AllInfo.cs` is `Rollups.AllInfo`.

A .NET `Dictionary` that is only added to or overwritten enumerates its keys
in insertion order. `Dictionaries.Dict` models this with an ordered key list
beside a map.

Behaviour of the code that the model keeps:

- There is no day backfill. A day exists only for the date of some counted
  license.
- The package round requests every id it is given, cached or not.
- An app missing from `Apps` makes the `Apps[appid]` indexer throw. It is
  not counted as "unknown". Only an app whose `Type` is null counts as
  "unknown".
- After a token answer, every id in that answer is refetched, including
  ids whose token was zero.
- A catalog that keeps flagging an app as lacking a token, and keeps
  answering the token request with a non-empty list (zero tokens, say), makes
  the chain recurse forever: `DenialExhaustsFuel`. An empty token answer ends
  the chain.
- A failed resolution completes `PICSReady` with false rather than
  propagating the error.
- The CSV cumulative of each key reads that key's own running total.

## Model

| member | source | states |
|---|---|---|
| Dictionaries.Empty | SteamStatsDumper/Program.cs:75-77 | a fresh dictionary has no keys and is well formed |
| Dictionaries.Put | SteamStatsDumper/Program.cs:87-88 | an indexer assignment keeps the dictionary well formed; a new key goes to the end of the enumeration, an existing key keeps its place, and the value is the one written |
| KeyValues.LowerChar | SteamStatsDumper/PICSInfo.cs:62 | the result is never an upper-case ASCII letter, and a character changes only when it is an upper-case letter, into its lower-case partner |
| KeyValues.LowerIdempotent | SteamStatsDumper/PICSInfo.cs:62 | `ToLower` of a lower-cased string changes nothing |
| KeyValues.FirstChildSpec | SteamStatsDumper/PICSInfo.cs:41-43 | the indexer finds nothing exactly when no child has the name (case-insensitively), and otherwise finds the earliest child with that name |
| KeyValues.ParseUInt32 | SteamStatsDumper/PICSInfo.cs:41 | a parsed unsigned value fits in 32 bits |
| KeyValues.ParseInt32 | SteamStatsDumper/PICSInfo.cs:42 | a parsed signed value fits in 32 bits |
| KeyValues.AsUnsignedInteger | SteamStatsDumper/PICSInfo.cs:41 | the value read is a 32-bit unsigned number: 0 for `Invalid`, for a node without a value and for text that does not parse, and otherwise the parsed number |
| KeyValues.AsInteger | SteamStatsDumper/PICSInfo.cs:42 | the value read is a 32-bit signed number: 0 for `Invalid`, for a node without a value and for text that does not parse, and otherwise the parsed number |
| KeyValues.UInt32RoundTrip | SteamStatsDumper/PICSInfo.cs:41 | writing any 32-bit unsigned number in decimal and parsing it back gives the number |
| KeyValues.Int32RoundTrip | SteamStatsDumper/PICSInfo.cs:42 | writing any 32-bit signed number in decimal and parsing it back gives the number |
| PicsInfo.CopiesHeader | SteamStatsDumper/PICSInfo.cs:20-24 | both record kinds copy `ID` and `ChangeNumber` unchanged |
| PicsInfo.PackageAppsAreAppids | SteamStatsDumper/PICSInfo.cs:41 | a package's apps are its `appids` children read as numbers, same length and order; no `appids` section gives no apps |
| PicsInfo.ReleaseStateOverridePresent | SteamStatsDumper/PICSInfo.cs:43 | `ReleaseStateOverride` holds if and only if `extended/releasestateoverride` is present |
| PicsInfo.AppNameAndType | SteamStatsDumper/PICSInfo.cs:61-62 | `Name` is `common/name`; `Type` is null exactly when `common/type` has no value, and otherwise is its lower-cased text |
| PicsInfo.ReleaseStateRule | SteamStatsDumper/PICSInfo.cs:63 | the explicit `common/releasestate` if present, else "released" when `common` exists, else "unavailable" |
| PicsInfo.PackageRoundTrip | SteamStatsDumper/PICSInfo.cs:39-44 | building a package from the tree written for it gives back the same package |
| PicsInfo.AppRoundTrip | SteamStatsDumper/PICSInfo.cs:59-64 | building an app from the tree written for it gives back the same app (whose type is lower case) |
| PicsInfo.AppOfLowerCase | SteamStatsDumper/PICSInfo.cs:62 | every app the constructor builds has a lower-case type, or none |
| PicsInfo.AppOfRoundTrip | SteamStatsDumper/PICSInfo.cs:59-64 | every app the constructor builds is rebuilt unchanged from the tree written for it |
| PicsInfo.PackageOf | SteamStatsDumper/PICSInfo.cs:39-44 | the package constructor; specified by `CopiesHeader`, `PackageAppsAreAppids`, `ReleaseStateOverridePresent` and `PackageRoundTrip` |
| PicsInfo.AppOf | SteamStatsDumper/PICSInfo.cs:59-64 | the app constructor; specified by `CopiesHeader`, `AppNameAndType`, `ReleaseStateRule`, `AppOfLowerCase` and `AppOfRoundTrip` |
| PicsInfo.ReleaseStateOf | SteamStatsDumper/PICSInfo.cs:63 | the release-state default; specified by `ReleaseStateRule` |
| Aggregation.FilterMembers | SteamStatsDumper/Program.cs:81 | `Where` keeps exactly the elements that satisfy the predicate |
| Aggregation.Insert | SteamStatsDumper/Program.cs:81 | insertion adds exactly one element (a multiset equation) and keeps a time-sorted list sorted |
| Aggregation.SortByTime | SteamStatsDumper/Program.cs:81 | `OrderBy(TimeCreated)` returns a permutation of its input, sorted by creation time; `SortStable` adds that it is stable |
| Aggregation.Filter | SteamStatsDumper/Program.cs:81 | `Where`; specified by `FilterMembers`, `FilterSort` and `FiltersCommute` |
| Aggregation.IsFree | SteamStatsDumper/Program.cs:101 | the free test; specified by `FreeClassification` |
| Aggregation.PaymentType | SteamStatsDumper/Program.cs:103 | the payment key; specified by `FreeClassification` |
| Aggregation.CountApp | SteamStatsDumper/Program.cs:106-135 | one app of a package; specified by `CountedAppBumpsTwoKeys` and `CountAppOwnership` |
| Aggregation.Summarize | SteamStatsDumper/Program.cs:81-137 | the whole loop of `Main`; specified by `TotalsCountDistinctApps`, `SummarizedDays`, `SummarizeCounted`, `DroppedLicenseChangesNothing` and `SummaryCumulatives` |
| Aggregation.Ordered | SteamStatsDumper/Program.cs:81 | the visited licenses are sorted by creation time, and every one is a license of the list that is not expired |
| Aggregation.Bump | SteamStatsDumper/Program.cs:126-134 | one insert-or-increment keeps the totals dictionary well formed |
| Aggregation.CountTypes | SteamStatsDumper/Program.cs:124-135 | the key loop keeps the totals well formed and leaves both owned lists alone |
| Aggregation.CountTypesCounts | SteamStatsDumper/Program.cs:124-135 | after the key loop every key has grown by the number of times it is listed, in `Entries` and in `totals`, and no unlisted key appears |
| Aggregation.CountApps | SteamStatsDumper/Program.cs:106-136 | the app loop keeps the totals dictionary well formed |
| Aggregation.Step | SteamStatsDumper/Program.cs:83-136 | one license iteration keeps `days` and `totals` well formed |
| Aggregation.Initial | SteamStatsDumper/Program.cs:70-77 | the loop starts from empty, well-formed collections |
| Aggregation.Run | SteamStatsDumper/Program.cs:81-137 | the fold over the visited licenses yields well-formed `days` and `totals` |
| Aggregation.Aggregate | SteamStatsDumper/Program.cs:70-143 | the loop of `Main`, in place, ends with exactly the collections of the reference fold over the ordered licenses |
| Aggregation.CountLicense | SteamStatsDumper/Program.cs:87-136 | the body of the license loop for a counted license performs exactly one `Step` |
| Aggregation.CountPackageApps | SteamStatsDumper/Program.cs:99-136 | the app loop of one package computes exactly `CountApps` |
| Aggregation.CountOneApp | SteamStatsDumper/Program.cs:106-135 | the body of the app loop for one app computes exactly `CountApp` |
| Aggregation.BumpKeys | SteamStatsDumper/Program.cs:124-135 | the key loop computes exactly `CountTypes` |
| AggregationProperties.FreeClassification | SteamStatsDumper/Program.cs:101-103 | a package is free if and only if its billing type is FreeOnDemand or its id is 0; the payment type is "free" or "paid" accordingly |
| AggregationProperties.CountedAppBumpsTwoKeys | SteamStatsDumper/Program.cs:106-135 | an app already owned in the partition changes nothing; any other app is appended to that partition's owned list only, and increments exactly the payment key and `"{type}_{payment}"` (two distinct keys), by one each in `Entries` and in `totals` |
| AggregationProperties.CountAppOwnership | SteamStatsDumper/Program.cs:106-113 | counting one app keeps the partition's owned list free of repeats and equal in length to its payment total, adds the app to the set of owned apps, and leaves the other partition alone |
| AggregationProperties.CountAppsOwnership | SteamStatsDumper/Program.cs:106-136 | the app loop of a package adds exactly the package's apps to the partition's owned set and keeps the list distinct and in step with the payment total |
| AggregationProperties.StepOwnership | SteamStatsDumper/Program.cs:95-136 | a license adds exactly its package's apps to the owned set of its partition, and nothing to the other |
| AggregationProperties.RunOwnership | SteamStatsDumper/Program.cs:81-137 | after the loop each owned list has no repeats, holds exactly the apps granted in that partition, and has the length of the "free" or "paid" total |
| AggregationProperties.TotalsCountDistinctApps | SteamStatsDumper/Program.cs:106-135 | the "free" and "paid" totals are the numbers of distinct apps granted by free and by paid licenses; an app can be counted once in each |
| AggregationProperties.CountAppsSameDelta | SteamStatsDumper/Program.cs:124-135 | the app loop grows each key of the day's `Entries` by exactly as much as the same key of `totals` |
| AggregationProperties.DaySumNewDay | SteamStatsDumper/Program.cs:87-88 | adding an empty day leaves every per-key sum over the days unchanged |
| AggregationProperties.DaySumRewrite | SteamStatsDumper/Program.cs:95-135 | rewriting a day's entries changes the per-key day sum by the change of that day alone |
| AggregationProperties.StepTotalsMatchDays | SteamStatsDumper/Program.cs:87-135 | one license iteration keeps every total equal to the sum over all days of that key |
| AggregationProperties.TotalsAreDaySums | SteamStatsDumper/Program.cs:124-135 | after the loop, `totals[k]` is the sum over all days of `Entries[k]`, a missing key counting 0 |
| AggregationProperties.CountTypesPositive | SteamStatsDumper/Program.cs:126-134 | the key loop only creates keys with count 1 and only increments, so every count stays at least 1 |
| AggregationProperties.CountAppsPositive | SteamStatsDumper/Program.cs:106-135 | the app loop keeps every count at least 1 |
| AggregationProperties.StepPositive | SteamStatsDumper/Program.cs:87-135 | one license iteration keeps every day count and every total at least 1 |
| AggregationProperties.RunCountsPositive | SteamStatsDumper/Program.cs:81-137 | after the loop every stored count is at least 1 |
| AggregationProperties.StepDays | SteamStatsDumper/Program.cs:87-88 | a counted license adds its date to the days, appended at the end when new; an uncounted one adds nothing |
| AggregationProperties.DaysAreLicenseDates | SteamStatsDumper/Program.cs:81-88 | the days are exactly the dates of the counted licenses: no backfill, even for a license whose apps were all already owned |
| AggregationProperties.DateMonotone | SteamStatsDumper/Program.cs:87 | a later creation time never has an earlier date |
| AggregationProperties.StepAscending | SteamStatsDumper/Program.cs:81-88 | over time-sorted licenses, an iteration keeps the day order strictly increasing |
| AggregationProperties.DaysAscending | SteamStatsDumper/Program.cs:81-88 | over time-sorted licenses, the days enumerate in strictly increasing date order |
| AggregationProperties.OrderedKeepsLive | SteamStatsDumper/Program.cs:81 | every license that is not expired is visited |
| AggregationProperties.SummarizedDays | SteamStatsDumper/Program.cs:81-88 | the days of the whole run are exactly the dates of the licenses that are neither expired nor family-shared, in strictly ascending order |
| AggregationProperties.FilterSort | SteamStatsDumper/Program.cs:81 | filtering after the stable sort is the same as sorting after the filter |
| AggregationProperties.SortSameTime | SteamStatsDumper/Program.cs:81 | sorting licenses all created at the same second leaves them in their order |
| AggregationProperties.SortStable | SteamStatsDumper/Program.cs:81 | `OrderBy` is stable: the licenses created at any one second come out in their input order |
| AggregationProperties.FilterInsert | SteamStatsDumper/Program.cs:81 | filtering commutes with inserting one license into a sorted list |
| AggregationProperties.FiltersCommute | SteamStatsDumper/Program.cs:81-85 | dropping expired and dropping family-shared licenses can be done in either order |
| AggregationProperties.RunSkipsUncounted | SteamStatsDumper/Program.cs:83-85 | the loop over a list gives the same result as the loop over its licenses that are not family-shared |
| AggregationProperties.SummarizeCounted | SteamStatsDumper/Program.cs:81-85 | the whole run is the loop over the sorted licenses that are neither expired nor family-shared |
| AggregationProperties.DroppedLicenseChangesNothing | SteamStatsDumper/Program.cs:81-85 | inserting an expired or family-shared license anywhere in the list changes neither `days`, nor `totals`, nor the owned lists |
| CsvOutput.CumulativeRows | SteamStatsDumper/Program.cs:153-183 | the columns are the keys of `Totals` in order; there is one row per day in order; each cell holds the day's count (0 when the day lacks the key) and the key's running total through that day; `cums` ends as that running total for every key of `Totals` and no other |
| CsvOutput.DayRow | SteamStatsDumper/Program.cs:169-182 | one day's row: every cell as above, and `cums` advanced by exactly that day's counts |
| CsvOutput.Cumulative | SteamStatsDumper/Program.cs:173-179 | the running total of a key; specified by `CumulativeIsPrefixSum`, `FinalCumulativeIsDaySum` and `CumulativeMonotone` |
| CsvOutput.CumulativeIsPrefixSum | SteamStatsDumper/Program.cs:173-179 | the cumulative after n rows is the sum of the key's counts over the first n days |
| CsvOutput.FinalCumulativeIsDaySum | SteamStatsDumper/Program.cs:169-183 | the last row's cumulative is the key's sum over all days |
| CsvOutput.CumulativeMonotone | SteamStatsDumper/Program.cs:173-179 | with no negative daily count, each cumulative column is non-decreasing down the rows |
| CsvOutput.SummaryCumulatives | SteamStatsDumper/Program.cs:169-183 | rendering the aggregation of `Main`: every cumulative column is non-decreasing, and after the last row `cums[k]` equals `Totals[k]` for every key |
| Rollups.TotalIsPaidPlusFree | SteamStatsDumper/TypeInfo.cs:13 | `Total` is `Paid + Free`, and so the sum over the days of each day's paid plus free count |
| Rollups.TypeInfo.Paid | SteamStatsDumper/TypeInfo.cs:15 | the category's paid count; specified by `CategoryCumulativeIsDaily`, `PutDay` and `EmptyCategoryIsZero` |
| Rollups.TypeInfo.Free | SteamStatsDumper/TypeInfo.cs:17 | the category's free count; specified by the same lemmas |
| Rollups.TypeInfo.Total | SteamStatsDumper/TypeInfo.cs:13 | specified by `TotalIsPaidPlusFree` |
| Rollups.TypeInfo.PaidCumulative | SteamStatsDumper/TypeInfo.cs:19 | specified by `CategoryCumulativeIsDaily` |
| Rollups.TypeInfo.FreeCumulative | SteamStatsDumper/TypeInfo.cs:21 | specified by `CategoryCumulativeIsDaily` |
| Rollups.AllInfo.Paid | SteamStatsDumper/AllInfo.cs:15 | the paid count of all categories; specified by `AllPaidIsSumOverEveryDay` and `EmptyAllIsZero` |
| Rollups.AllInfo.Free | SteamStatsDumper/AllInfo.cs:17 | the free count of all categories; specified by the same lemmas |
| Rollups.AllInfo.PaidCumulative | SteamStatsDumper/AllInfo.cs:19 | specified by `AllCumulativeIsDaily` |
| Rollups.AllInfo.FreeCumulative | SteamStatsDumper/AllInfo.cs:21 | specified by `AllCumulativeIsDaily` |
| Rollups.CategoryCumulativeIsDaily | SteamStatsDumper/TypeInfo.cs:15-21 | `Paid` and `Free` are the sums of the days' `Paid` and `Free`, and as written `PaidCumulative` and `FreeCumulative` equal them |
| Rollups.AllCumulativeIsDaily | SteamStatsDumper/AllInfo.cs:15-21 | as written, the cumulative numbers of all categories equal `Paid` and `Free` |
| Rollups.EmptyCategoryIsZero | SteamStatsDumper/TypeInfo.cs:13-25 | a category without days has a `Total` of 0 and 0 for all four numbers |
| Rollups.EmptyAllIsZero | SteamStatsDumper/AllInfo.cs:13-21 | no categories gives 0 for all four numbers |
| Rollups.PutDay | SteamStatsDumper/TypeInfo.cs:15-25 | recording a day under a new date adds exactly its `Paid` and `Free`; under an existing date it replaces that date's contribution |
| Rollups.SumOfCategories | SteamStatsDumper/AllInfo.cs:15-17 | summing categories' `Paid` (or `Free`) equals summing the field over all their days |
| Rollups.AllPaidIsSumOverEveryDay | SteamStatsDumper/AllInfo.cs:15-17 | composed with TypeInfo, `Paid` and `Free` of all categories are the sums over every day of every category |
| PicsConnection.Dedup | SteamStatsDumper/PICSConnection.cs:66 | `Distinct()` returns a list without repeats holding the same elements |
| PicsConnection.FetchPackages | SteamStatsDumper/PICSConnection.cs:52-62 | the package round; `Connection.UpdatePackagesById` is proved to compute it, and `FetchPackagesStores`, `FetchPackagesGrows` and `FetchPackagesCloses` specify it |
| PicsConnection.StorePackages | SteamStatsDumper/PICSConnection.cs:64-76 | storing packages and fetching their missing apps; computed by `Connection.UpdatePackages`, specified by `StorePackagesRequests` and `StorePackagesCloses` |
| PicsConnection.FetchApps | SteamStatsDumper/PICSConnection.cs:78-94 | the app round; computed by `Connection.UpdateAppsById`, specified by `FetchAppsGrows`, `FetchAppsThenTokens`, `FetchAppsCaches` and `DenialExhaustsFuel` |
| PicsConnection.StoreApps | SteamStatsDumper/PICSConnection.cs:88-93 | storing an app answer and asking for missing tokens; computed by `Connection.StoreAppAnswer`, specified by `FetchAppsThenTokens` |
| PicsConnection.FetchTokens | SteamStatsDumper/PICSConnection.cs:96-112 | the token round; computed by `Connection.GetTokens`, specified by `FetchTokensGrows`, `FetchTokensRefetch` and `RefetchSendsNewTokens` |
| PicsConnection.Connection.constructor | SteamStatsDumper/PICSConnection.cs:14-50 | a new connection has empty caches, a pending `PICSReady` and has made no request |
| PicsConnection.Connection.OnLicenseList | SteamStatsDumper/PICSConnection.cs:23-44 | an empty license list changes nothing; otherwise the packages of all licenses are resolved, and `PICSReady` becomes true when the chain completes and false when a call throws; a chain cut off by fuel leaves it pending; completing it a second time is a crash |
| PicsConnection.Connection.UpdatePackagesById | SteamStatsDumper/PICSConnection.cs:52-62 | requests every given id, then stores the packages of the answer; caches, outcome and the requests made are exactly those of `FetchPackages` |
| PicsConnection.Connection.StoreProductInfo | SteamStatsDumper/PICSConnection.cs:61 | the package records built from an answer are stored as `StorePackages` states |
| PicsConnection.Connection.UpdatePackages | SteamStatsDumper/PICSConnection.cs:64-76 | stores each package under its id, then fetches the apps not yet cached; caches, outcome and requests are exactly those of `StorePackages` |
| PicsConnection.Connection.UpdateAppsById | SteamStatsDumper/PICSConnection.cs:78-94 | requests the apps with their stored tokens, then handles the answer; caches, outcome and requests are exactly those of `FetchApps` |
| PicsConnection.Connection.StoreAppAnswer | SteamStatsDumper/PICSConnection.cs:88-93 | stores the answered apps, then asks tokens for the ones flagged as lacking one, exactly as `StoreApps` states |
| PicsConnection.Connection.GetTokens | SteamStatsDumper/PICSConnection.cs:96-112 | stores the non-zero tokens and refetches every app of a non-empty answer; caches, outcome and requests are exactly those of `FetchTokens` |
| PicsConnection.Connection.UpdateApps | SteamStatsDumper/PICSConnection.cs:114-118 | stores each app under its id, later entries overwriting earlier ones, and changes no other field |
| PicsConnectionProperties.PutByIdLastWins | SteamStatsDumper/PICSConnection.cs:69-70 | a record not followed by another with the same id is the one stored under its id |
| PicsConnectionProperties.PutByIdKeepsOthers | SteamStatsDumper/PICSConnection.cs:69-70 | an id no stored record has keeps its presence and its value |
| PicsConnectionProperties.PutByIdKeysAndValues | SteamStatsDumper/PICSConnection.cs:116-117 | the keys after storing are the old keys plus the record ids, and every value is a stored record or the old value |
| PicsConnectionProperties.PutTokensEffect | SteamStatsDumper/PICSConnection.cs:100-106 | only ids with a non-zero token gain an entry; an id whose tokens are all zero keeps its old state; stored tokens stay non-zero |
| PicsConnectionProperties.PutTokensLastWins | SteamStatsDumper/PICSConnection.cs:100-106 | the last non-zero token of an id is the one stored |
| PicsConnectionProperties.AppIdsMembers | SteamStatsDumper/PICSConnection.cs:66 | `SelectMany(Apps)` holds exactly the apps of the packages |
| PicsConnectionProperties.UncachedMembers | SteamStatsDumper/PICSConnection.cs:67 | the `Where(!ContainsKey)` filter keeps exactly the ids not cached, without repeats |
| PicsConnectionProperties.MissingAppsExactly | SteamStatsDumper/PICSConnection.cs:66-67 | the apps requested are exactly the distinct apps of the packages that are not cached |
| PicsConnectionProperties.FetchAppsGrows | SteamStatsDumper/PICSConnection.cs:78-94 | an app round never removes a cached app or token, never touches the packages, never stores a zero token, and makes at least one request |
| PicsConnectionProperties.FetchTokensGrows | SteamStatsDumper/PICSConnection.cs:96-112 | likewise for a token round |
| PicsConnectionProperties.FetchPackagesGrows | SteamStatsDumper/PICSConnection.cs:52-62 | a package round only adds to the three caches and never stores a zero token |
| PicsConnectionProperties.FetchPackagesStores | SteamStatsDumper/PICSConnection.cs:55-61 | the first request asks for every given package id, with no cache check; a throwing call changes nothing; otherwise the packages are the old ones updated with the answer |
| PicsConnectionProperties.StorePackagesRequests | SteamStatsDumper/PICSConnection.cs:66-75 | with no missing app nothing is requested and apps and tokens are unchanged; otherwise the first request asks for exactly the missing apps, each with its stored token or 0 |
| PicsConnectionProperties.MissingTokenIdsMembers | SteamStatsDumper/PICSConnection.cs:90 | the token request holds exactly the ids of the answered apps flagged `MissingToken` |
| PicsConnectionProperties.FetchAppsThenTokens | SteamStatsDumper/PICSConnection.cs:88-93 | apps are stored before any token request; with no flagged app the round ends there; otherwise the next request is the token request for the flagged ids, and a throwing token call leaves the stored apps |
| PicsConnectionProperties.FetchTokensRefetch | SteamStatsDumper/PICSConnection.cs:100-109 | an empty token answer ends the round; a non-empty one is followed by an app request for every id in it, zero tokens included, carrying the updated tokens |
| PicsConnectionProperties.RefetchSendsNewTokens | SteamStatsDumper/PICSConnection.cs:81-109 | in the refetch every id that got a non-zero token is sent with that token |
| PicsConnectionProperties.FetchAppsCaches | SteamStatsDumper/PICSConnection.cs:78-94 | when the catalog answers for every app asked, every requested app ends up cached |
| PicsConnectionProperties.StorePackagesCloses | SteamStatsDumper/PICSConnection.cs:64-76 | storing packages against such a catalog keeps every app of every cached package cached |
| PicsConnectionProperties.FetchPackagesCloses | SteamStatsDumper/PICSConnection.cs:52-76 | a package round that does not throw caches every requested package and keeps the caches closed |
| PicsConnectionProperties.ResolvedLicensesAreResolvable | SteamStatsDumper/PICSConnection.cs:27-36 | for a catalog that answers every package and app id it is asked for: after a completed resolution from empty caches, every license finds its package, and that package's apps, in the caches that `Main` reads |
| PicsConnectionProperties.DenialRound | SteamStatsDumper/PICSConnection.cs:88-109 | against a catalog that flags every app and answers zero tokens, one app round stores the apps, stores no token and asks for the same ids again |
| PicsConnectionProperties.DenialExhaustsFuel | SteamStatsDumper/PICSConnection.cs:88-109 | against that catalog, no amount of fuel finishes the chain, and no token is ever stored: the recursion of the source does not terminate |

## Left out

- Argument parsing, console prompts, login, connecting, awaiting `PICSReady` and `Environment.Exit` in `Main`: these are I/O and process control.
- `OutputHtml`: a file read, JSON serialisation and template replacement, with no logic.
- The CSV text: `StringBuilder` formatting, the culture-dependent `ToShortDateString` and `File.WriteAllText`. Rows are modelled as numbers.
- `uniqueLicenseFlags`: it is built from enum `ToString()` text and never read.
- `async`/`Task`, `TaskCompletionSource` and `ConcurrentDictionary` thread safety. The rounds run sequentially.
- The SteamKit calls are oracle functions. The several result callbacks of one call are flattened into one list of apps and one of packages.
- The `Public = false` field of each `PICSRequest`: it is constant and not modelled.
- `KeyValues.ParseUInt32`: models `TryParse` only on decimal digits (and a leading minus for the signed form). Surrounding whitespace, a `+` sign and culture settings are not modelled.
- `KeyValues.LowerChar`: `ToLower` and `OrdinalIgnoreCase` fold ASCII letters only, not Unicode.
- `Aggregation.Bump`: counters are unbounded integers. It does not model the 32-bit `int` overflow of the source, because no licence list comes near 2^31 apps.
- `Aggregation.DateOf`: `TimeCreated.Date` is whole days of UTC seconds. Time zones and `DateTime` kinds are not modelled.
- `Aggregation.Aggregate`: `di` is a reference into `days` in the source. The model treats it as a value written back after the license's app loop. Nothing else aliases it.
- The throwing path of the license loop: `Main` reads `conn.Packages` for every counted, live license and `conn.Apps` for the first occurrence of each app in its partition, so the loop runs to the end exactly when every such package and every app of it is cached. `Aggregation.Aggregate` requires that (`Resolves`) and does not model the exception otherwise.
- `PicsConnection.FetchTokens`: the token and refetch chain is bounded by `fuel`. `OutOfFuel` stands for a chain that has not finished. `DenialExhaustsFuel` shows some chains never finish.
- `PicsConnection.FetchApps`: the lazily evaluated `Where` over the missing apps is read before any app is stored, so the model computes it eagerly.
- TypeDay.cs, IWithNumbers.cs and DayInfo.cs declare data only. They appear as the datatypes `Rollups.TypeDay`, `Rollups.Numbers`, `Aggregation.DayInfo` and `Aggregation.DailyReport`.
