# CashFlux: verified models

Dafny models of the parts of CashFlux whose correctness does not show in any one function body, with proofs of
what they promise. `dafny verify dfyconfig.toml` checks everything. One module stands for one component:

- **SseStream, SseFraming**: the incremental decoder of streamed model answers. However the network cuts the text into
  chunks, the events are those of the whole text, and every framing of payloads, with comments and other fields among
  them, decodes to those payloads.
- **BuildCache, BuildInstall, BuildActivation, BuildHandover, BuildServing, BuildContents, BuildKeys**: the service
  worker's build cache, a protocol of staged install, promotion, marker-last commit, eviction and scrubbing over a store
  without transactions. Processes interleave freely, and any of them may be cut off between two cache operations.
- **WeightedSums, AgeOfMoney**: how old the money being spent is, by first-in-first-out matching of every unit
  spent against every unit earned, on an accumulator that moves from 64 bits to big integers.
- **BalanceHistory**: an account's balance history by prefix sums and binary search, against a plain sweep.
- **Projections, ProjectionOrder**: the projected balance and its four readings (projection, daily series, first
  negative day, outlook), and what the order of its drivers decides.
- **Calendar, Schedule, ProjectionWindows**: the dates of recurring bills, the arithmetic jump over them, and one
  expansion that serves two horizons.
- **Attributions**: which purchases explain an overspend.
- **Allocation**: sharing out money over ranked goals, and the actions this makes.
- **Coalescer**: forwarding a streamed answer in fewer pieces without changing what the receiver makes of it.
- **Connections, ConnectionCalls**: the epoch-guarded connection cache under concurrent dials and resets, and what
  becomes of each call.
- **RequestMachine, RequestTrace, ToolChat, ChatTrace**: one AI request with deadline, retries and cancel under every
  order of events, the second chance it gets without its reasoning effort, and what the callbacks say of the events.
- **AgentLoop**: the tool registry and the bounded model-and-tools loop.
- **Money, Sequences, Wrappers**: checked and wrapping 64-bit arithmetic; a stable sort and sums; optional values.

Classes stand where the source keeps an object with changing fields (`StreamDecoder`, `Accumulator`, `History`,
`Registry`), methods with loops where it runs loops, and step relations over values where it interleaves
asynchronous callbacks (`BuildCache`, `Connections`, `RequestMachine`, `ToolChat`).

What the proofs turned up about the code, in each case with a concrete input and the exact condition:

- Build ids such as `x` and `x-staging` share a cache name. Installing `x` then takes the complete build
  `x-staging` apart under its marker (`AliasExample`, `AliasBreaks`). Marker-last holds over all runs exactly when no
  stamped build's cache name is another one's staging name (`MarkerLastExactly`).
- A complete build with the id `staging`, or with an id that sanitizing changes, is never found by
  `findCompleteCache` (`NeverFound`); `FoundExactly` says which ids are found.
- An activation does not always leave its build's cache as the only one: a page of another build that is still
  fetching opens an evicted cache again (`FetchReopens`, `SearchReopens`). It does for certain exactly if no other build
  fetches meanwhile (`ActivationExactly`).
- `Explain` adds up in wrapping 64-bit arithmetic. For non-negative purchases its verdict is right exactly when
  the first total that reaches the share fits in 64 bits (`VerdictExactly`, `WrappedVerdictIsWrong`).
- Text merged into the terminal chunk by the coalescer is never shown live, contrary to the comment at
  internal/ai/proxy_transport.go:259-261. The final answer is right all the same (`LiveExactly`, `DeltasLost`,
  `CoalescingPreservesMeaning`).
- Whether a projection overflows can depend on the order of drivers with the same day and label (`OrderDecides`,
  `AnyOrderExactly`).
- `Distribute` subtracts the reserve without a check: a total near -2^63 then looks like money (`DebtLooksLikeMoney`,
  `DistributeExactly`).
- The fill-to-target split keeps one amount per id, so candidates that share an id are paid twice
  (`DuplicateIdsOverspend`); it stays within the money exactly for distinct ids (`NeverOverspendsExactly`).
- The token total of the agent loop wraps, and a wrapped total looks unspent. The budget holds for all models that
  report at most M tokens a turn exactly if M is at most 2^63 less the budget (`BudgetExactly`, `BudgetMissed`).

## Model

| member | source | states |
|---|---|---|
| SseStream.IndexIsFirst | internal/ai/stream.go:89-100 | the search returns the first place the separator occurs, and nothing exactly when it occurs nowhere |
| SseStream.NextBlankLineIsFirst | internal/ai/stream.go:87-100 | a separator is returned exactly if it is the first of either spelling, none exactly if there is none |
| SseStream.FirstBlankLineStable | internal/ai/stream.go:60-100 | more bytes never change the first separator found |
| SseStream.DecodeSseBlock | internal/ai/stream.go:104-131 | the loop over the lines of a block joins the payloads of its data lines and classifies them |
| SseStream.StreamDecoder.constructor | internal/ai/stream.go:38-48 | a decoder starts empty and not done |
| SseStream.StreamDecoder.Feed | internal/ai/stream.go:60-85 | events, leftover bytes and done flag are those of draining the kept bytes with the chunk; nothing after the terminator |
| SseStream.DrainAppend | internal/ai/stream.go:60-85 | draining a longer text is draining its front and then the leftover with the rest |
| SseStream.DecodeChunks | internal/ai/stream.go:60-85 | chunk invariance: any cutting of any text yields the events and the done flag of the whole text |
| SseFraming.LineCarries | internal/ai/stream.go:106-123 | a data line carries its payload, written with a space or, if the payload begins with none, without; a comment and any other field carry nothing |
| SseFraming.DecodeEncoded | internal/ai/stream.go:104-131 | a block of such lines decodes to their payloads joined: nothing if blank, the end if it is the terminator, else that event |
| SseFraming.FrameSeparated | internal/ai/stream.go:87-100 | the first separator of an encoded event is the one that ends it |
| SseFraming.DrainEncoded | internal/ai/stream.go:66-131 | draining encoded events gives for each the concatenation of what its data lines carry, comments and other fields carrying nothing; blank ones are skipped and the terminator ends it, under either line ending |
| SseFraming.DecodeFramed | internal/ai/stream.go:60-131 | any cutting of any framing of payloads decodes to the payloads |
| BuildCache.MarkerIsNoAsset | web/sw.js:385-414 | the completion marker is neither a core asset nor a runtime asset |
| BuildCache.VitalIsAllowed | web/sw.js:407-414 | no entry that a complete build needs is ever scrubbed |
| BuildServing.CoreIsNotStatic | web/sw.js:385-405 | a runtime asset that is not a core key is no core entry, the root document included |
| BuildServing.CoreIsAllowed | web/sw.js:407-414 | every core entry and the marker survive the scrub |
| BuildInstall.SelectableExactly | web/sw.js:64-105 | for every id, the fallback search considers its cache exactly if the sanitized id neither ends in -staging nor is staging |
| BuildInstall.FindCompleteCache | web/sw.js:76-105 | a cache is found exactly if a considered one is complete, and it is whole |
| BuildCache.StepKeeps | web/sw.js:196-240 | every cache operation keeps the marker-last invariant, its own process consistent, and the vital entries of every build cache |
| BuildCache.RunKeeps | web/sw.js:196-321 | so does every interleaving of installs, dev installs, fetches, activations and cuts |
| BuildInstall.MarkerLastExactly | web/sw.js:196-240 | in every reachable state a cache with the marker is whole, exactly when no stamped build's cache name is another's staging name |
| BuildInstall.AliasBreaks | web/sw.js:64-74 | with such an alias a run leads to a marked cache that misses a required asset |
| BuildInstall.AliasExample | web/sw.js:64-74 | the ids x and x-staging are such an alias, with such a run |
| BuildInstall.DevIsNoAlias | web/sw.js:257-281 | dev and dev-staging are not, since the dev build is never staged |
| BuildInstall.InstallIsolated | web/sw.js:196-240 | an install, finished or cut off anywhere, changes no cache but the build's own and its staging cache |
| BuildInstall.OtherBuildSurvives | web/sw.js:165-171 | a complete build stays complete and its worker's choice of cache stays the same through another build's install |
| BuildInstall.CompleteIsSelectable | web/sw.js:94-105 | a complete build with a findable id makes the fallback search succeed whatever else is listed |
| BuildInstall.FoundExactly | web/sw.js:76-105 | a complete build is found, when no other listed cache is, exactly if its id is not empty, is unchanged by sanitizing, and neither is staging nor ends in -staging |
| BuildInstall.NeverFound | web/sw.js:76-105 | complete builds with the ids staging and "a b" are not found: the one by its name, the other because its marker holds the unsanitized id |
| BuildInstall.InstalledIsComplete | web/sw.js:196-240 | from any store and for all choices of wasm spelling, optional assets and responses, an undisturbed install that finishes leaves its build complete |
| BuildInstall.StaysReady | web/sw.js:196-240 | at every point of an undisturbed install nothing is missing that the rest of it relies on |
| BuildInstall.NoDeadEnd | web/sw.js:196-240 | from every point an undisturbed install can reach it can go on to its end |
| BuildActivation.ActivationCleans | web/sw.js:295-321 | at every point of an activation that has only fetches of its own build beside it, the build is complete, the phase is as far as it says and other apps' caches are untouched |
| BuildActivation.ActivationResult | web/sw.js:295-321 | when such an activation ends, the build's cache is the only app cache, complete and with allowed entries only, and other apps' caches are as they were |
| BuildActivation.FetchStepGrows | web/sw.js:420-446 | a fetch only adds to the store, only entries that may stay, and only to this app's caches |
| BuildActivation.ReachableBegins | web/sw.js:295-321 | in a reachable state, which processes are under way decides whether an activation begins that way |
| BuildHandover.ActivationExactly | web/sw.js:165-171 | for a set of builds that may fetch meanwhile: every activation that ends has cleaned up exactly if none of them is another build |
| BuildHandover.FetchReopens | web/sw.js:165-168 | a fetch of a build with another cache name opens its evicted cache again before the activation ends |
| BuildHandover.SearchReopens | web/sw.js:94-105 | a fetch of another build with the same cache name searches for a complete cache, and opens again what it had listed before the eviction |
| BuildHandover.OthersReopen | web/sw.js:165-171 | so for every other build there is such a run from a reachable state |
| BuildHandover.InstallAmongFetchesCompletes | web/sw.js:196-240 | with fetches of whatever builds beside it, an install that finishes leaves its build complete |
| BuildHandover.InstallThenActivate | web/sw.js:196-321 | an install with any fetches beside it, followed by an activation with only the build's own beside it, cleans up |
| BuildContents.InstallStores | web/sw.js:196-240 | with fetches of whatever builds beside it, an install that finishes leaves as core entries of its build exactly the responses it was given, the marker, and what was there before of the optional assets it could not fetch |
| BuildContents.InstallGathers | web/sw.js:208-239 | at every step of an install the staging cache holds the responses given so far, and the build's cache those promoted so far |
| BuildContents.InstalledAssets | web/sw.js:196-240 | so every required asset, one spelling of the binary, and every optional asset that was fetched is stored with the response fetched for it |
| BuildContents.FetchStores | web/sw.js:433-437 | a fetch stores its response under the URL asked for, in the cache it settled on, and changes nothing else |
| BuildContents.FetchKeepsCore | web/sw.js:382-437 | no step of a fetch changes a core entry of any cache, under any name |
| BuildContents.DevStores | web/sw.js:246-255 | a dev install stores each asset it can fetch, and leaves everything as it was for one it cannot |
| BuildKeys.NameOf | web/sw.js:64-74 | a cache name is the prefix and the id, character by character, those that are no letter, digit, dot, underscore or dash replaced by a dash; the staging name adds -staging |
| BuildKeys.AppNameExactly | web/sw.js:300-307 | the caches an activation may evict are those whose names begin with cashflux- |
| BuildKeys.CompleteExactly | web/sw.js:76-92 | a cache is complete exactly if its marker names the build and it holds every required path and one of the two binaries |
| BuildKeys.FileInExactly | web/sw.js:402-404 | the pattern of a directory matches exactly the paths made of it, a non-empty name without a slash, and the extension |
| BuildKeys.StaticExactly | web/sw.js:396-405 | what may be stored at runtime: fonts, sounds and admin images of the listed kinds, none in a deeper directory |
| BuildKeys.NeverAllowed | web/sw.js:407-414 | no API route, nothing from another origin, and no root document with a query may stay in a cache |
| BuildKeys.NoApiLeft | web/sw.js:295-321 | so after an activation no app cache holds any of these |
| BuildServing.CoreFrozen | web/sw.js:385-446 | from every reachable state, until the build is installed again, no run of other installs, activations and fetches changes, adds or removes a core entry |
| BuildServing.PlainBuildsApart | web/sw.js:64-74 | ids that sanitizing leaves alone, do not end in -staging and are not dev meet the conditions of all the above |
| WeightedSums.Accumulator.constructor | internal/agemoney/weighted.go:10-15 | the accumulator starts at zero, in 64 bits |
| WeightedSums.Accumulator.Promote | internal/agemoney/weighted.go:32-37 | promotion keeps the value |
| WeightedSums.Accumulator.AddProduct | internal/agemoney/weighted.go:18-30 | the exact product is added, and the sum stays in 64 bits exactly as long as it fits |
| WeightedSums.Accumulator.Add | internal/agemoney/weighted.go:39-46 | the exact value is added, whichever form either side has |
| WeightedSums.Accumulator.Rounded | internal/agemoney/weighted.go:50-62 | both branches give the quotient rounded half up whenever that fits in 64 bits |
| WeightedSums.RoundSplit | internal/agemoney/weighted.go:50-62 | quotient plus remainder test equals floor((w + m/2) / m) |
| AgeOfMoney.TakeOldest | internal/agemoney/agemoney.go:128-148 | one take moves units from the oldest lot to the spend record, with their clamped age |
| AgeOfMoney.ConsumeLots | internal/agemoney/agemoney.go:124-151 | an outflow takes the oldest units of the queue, as many as it needs or there are, at the sum of their clamped ages |
| AgeOfMoney.MatchFlows | internal/agemoney/agemoney.go:116-154 | the k-th unit matched is the k-th unit earned; lots before the head are empty, after it untouched; earned equals remaining plus matched |
| AgeOfMoney.RecordsTile | internal/agemoney/agemoney.go:116-154 | the spend records together match exactly the units matched |
| AgeOfMoney.RecordsBounded | internal/agemoney/agemoney.go:132-142 | each record's weighted total is between zero and its units times the age cap |
| AgeOfMoney.SumWindow | internal/agemoney/agemoney.go:169-184 | overflow is reported exactly when the matched total of the window exceeds 64 bits; otherwise the totals are exact and ready means all matched |
| AgeOfMoney.RoundBound | internal/agemoney/agemoney.go:190-196 | the rounded average of clamped ages is at most the cap |
| AgeOfMoney.Compute | internal/agemoney/agemoney.go:106-198 | the records are the first-in-first-out ones, and the report over the trailing window is their rounded average, between zero and the cap, capped exactly at the cap |
| AgeOfMoney.AgeUnique | internal/agemoney/agemoney.go:106-198 | flows and options determine the report, whichever form the accumulators took |
| AgeOfMoney.NoAge | internal/agemoney/agemoney.go:134-137 | money spent before it was earned has age zero |
| AgeOfMoney.AgeInDays | internal/agemoney/agemoney.go:134-140 | the age is the number of whole days from earning to spending, up to the cap |
| AgeOfMoney.AgeSaturates | internal/agemoney/agemoney.go:134-140 | a longer time than a duration holds counts as the longest it does |
| AgeOfMoney.OneLotAge | internal/agemoney/agemoney.go:106-198 | money earned at once and spent at once, k days and a part of a day later, reports k, or the cap and that it is capped |
| AgeOfMoney.TrailingIsLast | internal/agemoney/agemoney.go:160-164 | the window is the last spends, as many as it says or all there are |
| Money.Add | internal/money/arithmetic.go:39-44 | the sum, or an error exactly when it does not fit in 64 bits |
| BalanceHistory.PrefixIsBefore | internal/accountflow/accountflow.go:141-165 | the first k sorted transactions, if they are those before a day's end, make up the balance defined without any order |
| BalanceHistory.DayCounts | internal/accountflow/accountflow.go:151-165 | a transaction is before a day's end exactly if its own calendar day is that day or an earlier one |
| Sequences.StringLeDecided | internal/accountflow/accountflow.go:146-151 | ties are broken by the order of strings: the first character that differs decides, and a beginning comes first |
| BalanceHistory.BalanceSeries | internal/accountflow/accountflow.go:132-167 | the sweep yields for each day the opening balance plus all own transactions before its end, wrapped to 64 bits |
| BalanceHistory.PrefixSums | internal/accountview/details.go:51-60 | entry i is the running balance after i transactions, and overflow is flagged exactly if some exact running balance does not fit |
| BalanceHistory.OverflowStep | internal/accountview/details.go:53-60 | the checked addition fails exactly where the exact running balance first leaves 64 bits |
| BalanceHistory.History.constructor | internal/accountview/details.go:38-62 | preparing builds the index of the account's own transactions in date order |
| BalanceHistory.Search | internal/accountview/details.go:70-82 | the binary search returns the number of transactions before a day's end |
| BalanceHistory.History.Series | internal/accountview/details.go:70-82 | the index yields the same series as the sweep, and the exact balances when nothing overflowed |
| BalanceHistory.SeriesAgree | internal/accountview/details.go:38-82 | index and sweep agree for every account, transaction list, date and window |
| Projections.KeptCurve | internal/acctproject/acctproject.go:66-84 | dropping, moving and sorting drivers leaves the day-by-day balance as it was |
| Projections.KeptMembers | internal/acctproject/acctproject.go:66-84 | a projection keeps exactly the drivers of its window, with name and amount, the overdue ones moved to its first day |
| Projections.WalkDay | internal/acctproject/acctproject.go:103-119 | one day's drivers are added up exactly, or an overflow is real |
| Projections.WalkDayCloses | internal/acctproject/acctproject.go:103-119 | the walk visits each day with a driver once, with its closing balance, up to where it is told to stop |
| Projections.ClosesOnCurve | internal/acctproject/acctproject.go:103-119 | each close is the reference balance of its day and the days increase |
| Projections.DayHasClose | internal/acctproject/acctproject.go:103-119 | the balance of any day is the start balance or that of the latest close |
| Projections.LowOfCurve | internal/acctproject/acctproject.go:86-98 | the lowest close, against the start, is the lowest of all days, and its date the first such day |
| Projections.Project | internal/acctproject/acctproject.go:60-98 | succeeds exactly if no running balance overflows; then low, low date and end are those of the reference curve |
| Projections.ProjectionPermuted | internal/acctproject/acctproject.go:60-98 | permuting the drivers of a projection that succeeds either way changes neither low, low date nor end |
| ProjectionOrder.AnyOrderExactly | internal/acctproject/acctproject.go:60-119 | a projection succeeds for every order of its drivers exactly if, for every day and label, the balance before with all that comes in under the label, and with all that goes out, fits in 64 bits |
| ProjectionOrder.ArrangementsExactly | internal/acctproject/acctproject.go:79-119 | the same for all sorted arrangements of the kept drivers |
| ProjectionOrder.Rearrange | internal/acctproject/acctproject.go:68-84 | every sorted arrangement of the kept drivers comes from some order of the given ones |
| ProjectionOrder.OrderDecides | internal/acctproject/acctproject.go:60-119 | two drivers of one day and label that overflow in one order and not in the other |
| Projections.FirstNegative | internal/acctproject/acctproject.go:210-227 | a day is found exactly if the start or some day's balance is negative, and it is the first one |
| Projections.OutlookOf | internal/acctproject/outlook.go:32-45 | negative, low or rising exactly as low < 0, 0 <= low < start, low = start; the negative day is the first one |
| Projections.ApplyDay | internal/acctproject/acctproject.go:175-196 | the loop succeeds exactly if every running balance, the money in and the money out fit in 64 bits, and then gives the totals |
| Projections.ApplyAllExact | internal/acctproject/acctproject.go:175-196 | the totals are exact and the balance moves by in minus out |
| Projections.ApplyAllExactly | internal/acctproject/acctproject.go:175-196 | adding up a day succeeds exactly if its sums fit |
| Projections.BalancesFitMeans | internal/acctproject/acctproject.go:175-196 | running balances fit exactly if the balance after every number of drivers does |
| Projections.GroupByDay | internal/acctproject/acctproject.go:156-160 | the map gives for every day its drivers, in order |
| Projections.Series | internal/acctproject/acctproject.go:151-173 | succeeds exactly if the sums of every day fit; one point per day with its balance, in and out |
| Projections.SeriesOfProjection | internal/acctproject/acctproject.go:60-196 | the series of a projection fails only on a day whose money in or money out does not fit: its balances always do |
| Projections.SeriesReadsCurve | internal/acctproject/acctproject.go:60-173 | the points are the curve, low is its minimum with the start, end the last point, and each change is in minus out |
| Calendar.DateOrder | internal/domain/recurring_advance.go:59-69 | dates are ordered as their day numbers and have one day number each |
| Calendar.MonthStartByFormula | internal/domain/recurring_advance.go:59-69 | the first of every month has the day number that the closed formula of the Gregorian calendar gives, for all years |
| Calendar.LengthAgrees | internal/domain/recurring_advance.go:67-69 | the length of every month is what that formula gives |
| Calendar.UnixEpoch | internal/accountview/details.go:161-164 | 1 January 1970 is day 719528 |
| Calendar.Normalise | internal/domain/recurring_advance.go:59-69 | any day offset from a month has one valid date, with that day number |
| Schedule.StepForward | internal/accountview/details.go:254-261 | every cadence step leads to a valid, strictly later date |
| Schedule.StepOnce | internal/accountview/details.go:254-261 | one step as a method: the date that the schedule has next, valid |
| Schedule.NthFixed | internal/accountview/details.go:240-250 | day-based schedules are arithmetic progressions |
| Schedule.NthFixedDate | internal/accountview/details.go:219-224 | adding the multiple of days at once gives the date that stepping gives |
| Schedule.NthMonthly | internal/accountview/details.go:254-261 | the j-th date of a month-based schedule is j steps of one, three or twelve months on, on the anchor day or the last of the month if that is earlier |
| Schedule.EndOfJanuary | internal/accountview/details.go:188-193 | a monthly bill of 31 January falls on the last of February, the 29th in leap years, and then on 31 March |
| Schedule.MonthsAgree | internal/domain/recurring_advance.go:10-30 | a quarter is three monthly steps and a year four quarters |
| Schedule.DaysAgree | internal/accountview/details.go:240-250 | the j-th daily, weekly and biweekly dates are j, 7j and 14j days on |
| Schedule.NthSemimonthly | internal/domain/recurring_advance.go:10-30 | the j-th semimonthly date is the beginning, on the 1st or the 15th, of the j-th half-month after that of the first date |
| Schedule.SemimonthlyFromFirst | internal/domain/recurring_advance.go:10-30 | from the first of a month on these are the first and the fifteenth of every month |
| Schedule.JumpLands | internal/accountview/details.go:219-224 | the arithmetic jump lands on the first schedule date on or after the start |
| Schedule.StepUntil | internal/accountview/details.go:225-235 | stepping finds the first date on or after the start, or gives up exactly if the bound is too small |
| Schedule.FirstOnOrAfter | internal/accountview/details.go:219-236 | jump and stepping alike: the first date on or after the start; day-based cadences never give up |
| Schedule.ListUpcoming | internal/accountview/details.go:205-213 | the listing loop yields the dates stepping yields, up to the end day and the bound |
| Schedule.OccurrenceDates | internal/accountview/details.go:194-214 | the overdue date once, then the schedule from its first date in the window |
| Schedule.UpcomingLists | internal/accountview/details.go:205-213 | a schedule date is listed exactly if it is in the window and within the bound |
| Schedule.ListingExactly | internal/accountview/details.go:194-214 | strictly increasing, overdue date first, and exactly the schedule dates of the window up to the bound |
| Schedule.ListingUnreached | internal/accountview/details.go:194-236 | when stepping gives up, only the overdue date is listed, and the schedule indeed does not reach the window within the bound |
| Schedule.StartUnique | internal/accountview/details.go:194-236 | where a listing starts is determined by the schedule |
| ProjectionWindows.Prepare | internal/accountview/details.go:106-114 | each account gets its active, non-service rows with an amount, in order |
| ProjectionWindows.OccurrencesShorter | internal/accountview/details.go:169-185 | cutting a longer expansion off at a shorter horizon gives the shorter expansion |
| ProjectionWindows.ExpandRows | internal/accountview/details.go:169-185 | the expansion is every row's occurrence dates, row by row; empty for a non-positive horizon |
| ProjectionWindows.SelectWindow | internal/accountview/details.go:263-278 | the first foreign-currency occurrence of the window, or all its drivers |
| ProjectionWindows.ProjectWindow | internal/accountview/details.go:263-278 | the window's result: currency error, overflow error or projection of the occurrences up to its end |
| ProjectionWindows.WindowUnique | internal/accountview/details.go:263-278 | a window's result is determined by its occurrences |
| ProjectionWindows.ProjectAccount | internal/accountview/details.go:121-124 | one projection is the window result of the account's own expansion |
| ProjectionWindows.ProjectPair | internal/accountview/details.go:151-159 | each result of the pair is the window result of its own horizon |
| ProjectionWindows.PairAgrees | internal/accountview/details.go:121-159 | the pair equals two separate projections, errors included, for every two horizons |
| ProjectionWindows.RowsOfMembers | internal/accountview/details.go:102-114 | an account's rows are its own recurring rows that have an amount, are active and are no service |
| ProjectionWindows.FirstForeignIs | internal/accountview/details.go:269-275 | a currency error names the first occurrence not in the account's currency, and comes exactly if there is one |
| ProjectionWindows.BalanceOnDay | internal/accountview/details.go:121-214 | the projected balance on any day of the window is the balance now plus every row's amount as often as it has come due by then |
| ProjectionWindows.WindowTells | internal/accountview/details.go:121-278 | so a window's end is that balance on its last day, and its low is the least of them |
| Attributions.PctReaches | internal/anomalyattrib/anomalyattrib.go:152-157 | the percentage test is the integer comparison of products |
| Attributions.TopIsLargest | internal/anomalyattrib/anomalyattrib.go:85-105 | no choice of k purchases totals more than the k largest |
| Attributions.ScanRanked | internal/anomalyattrib/anomalyattrib.go:94-105 | the loop takes purchases until the share is reached or five are taken, with a wrapping total |
| Attributions.Explain | internal/anomalyattrib/anomalyattrib.go:80-149 | every field of the answer; for non-negative purchases the verdict is right exactly when the first total to reach the share fits in 64 bits |
| Attributions.CountLargerIs | internal/anomalyattrib/anomalyattrib.go:134-149 | the count of unusually large culprits is the number of those marked so |
| Attributions.FewIs | internal/anomalyattrib/anomalyattrib.go:94-133 | few enough is one, or at most five and at most half of all |
| Attributions.ScanExact | internal/anomalyattrib/anomalyattrib.go:94-106 | unless totals leave 64 bits the running total is that of the purchases taken |
| Attributions.VerdictExactly | internal/anomalyattrib/anomalyattrib.go:80-149 | right means: concentrated exactly if some few purchases reach 60%, and then no smaller choice than the culprits does |
| Attributions.SmallTotalsSuffice | internal/anomalyattrib/anomalyattrib.go:95-105 | if all purchases together fit in 64 bits, that condition holds |
| Attributions.WrappedVerdictIsWrong | internal/anomalyattrib/anomalyattrib.go:95-133 | two large purchases whose total wraps are not found |
| Allocation.SharesFit | internal/allocate/allocate.go:256-295 | rounded-down shares total at most the money, and less than one unit per destination is lost |
| Allocation.SharesInProportion | internal/allocate/allocate.go:270-291 | two shares are as their scores but for less than a unit of rounding, and no positive score means no share as long as somebody has one |
| Allocation.SharesEven | internal/allocate/allocate.go:251-295 | if no score is positive all shares are the same |
| Allocation.Distribute | internal/allocate/allocate.go:256-295 | each destination gets its capped share of what is available in 64-bit arithmetic, and the remainder is the total less what was allotted |
| Allocation.AvailableExactly | internal/allocate/allocate.go:261-264 | what is available is the excess over the reserve exactly if that difference fits in 64 bits, and more exactly if it is below them |
| Allocation.DistributeExactly | internal/allocate/allocate.go:256-295 | no ranking and cap hands out more than the excess over the reserve exactly if the difference is not below 64 bits |
| Allocation.DebtLooksLikeMoney | internal/allocate/allocate.go:261-264 | a total of -2^63 with a reserve of 1 makes 2^63 - 1 available |
| Allocation.DistributeSound | internal/allocate/allocate.go:256-295 | amounts are non-negative, within the cap and within what is available; without a cap all but less than one unit each is shared out |
| Allocation.FillGoals | internal/allocate/allocate.go:165-189 | the fill loop gives each goal in turn up to target, cap and what is left |
| Allocation.FillSum | internal/allocate/allocate.go:165-189 | for distinct ids, filled amounts and what is left make up what was available |
| Allocation.FillOrder | internal/allocate/allocate.go:165-189 | a lower goal gets fill money only if every higher goal reached its target or cap; money is left only if all did |
| Allocation.SpreadFacts | internal/allocate/allocate.go:191-235 | the spread gives only to those with room, within it, and no more than is left |
| Allocation.Spread | internal/allocate/allocate.go:191-235 | the spread loop gives each destination with room its share, clamped to the room |
| Allocation.DistributeFillToTarget | internal/allocate/allocate.go:156-248 | each plan is fill plus spread of its id, and the remainder is the total less the plans in 64-bit arithmetic |
| Allocation.FillThenSpreadSound | internal/allocate/allocate.go:156-248 | for distinct ids and a non-negative reserve: amounts non-negative, within the cap, totalling at most total less reserve, filled in rank order; the remainder is exact, and without a cap less than one unit per destination is left over |
| Allocation.NeverOverspendsExactly | internal/allocate/allocate.go:156-248 | the split stays within the money for every ranking with given ids exactly if the ids are distinct |
| Allocation.DuplicateIdsOverspend | internal/allocate/allocate.go:156-248 | an instance: two candidates with one id and a total of 100 are paid 180 |
| Allocation.PlanActions | internal/allocate/actions.go:39-68 | one action per positive plan, by kind of destination, in order |
| Allocation.ActionsCommitPlans | internal/allocate/actions.go:39-68 | the actions commit exactly what the plans allot, each a positive amount |
| Allocation.ActionsAppend | internal/allocate/actions.go:39-68 | the actions of plans in a row are those of each in turn |
| Allocation.ActionsOfOne | internal/allocate/actions.go:41-66 | a plan with the prefix goal: contributes to the goal of the id that follows, any other earmarks for a debt or an account, and none without an amount acts |
| Coalescer.Flush | cmd/cashflux-services/main.go:341-356 | what is pending is posted under the next number, unless it is nothing |
| Coalescer.ForwardAiStream | cmd/cashflux-services/main.go:335-385 | the loop posts what the recursive forwarder posts |
| Coalescer.ForwardMeans | internal/ai/proxy_transport.go:241-288 | with a chunk held back, the posts to come mean what the chunks to come mean after it |
| Coalescer.CoalescingPreservesMeaning | internal/ai/proxy_transport.go:224-288 | for every stream, ending and flush timing the receiver's answer, usage, empty reply or error is that of the raw chunks |
| Coalescer.ReceivedToLast | internal/ai/proxy_transport.go:256-287 | a stream with a last chunk means all text up to it with the usage reported last, or an empty reply if there is no text |
| Coalescer.ReceivedToEnd | internal/ai/proxy_transport.go:241-257 | one without means all of its text, or the error that ended it |
| Coalescer.ForwardNumbered | cmd/cashflux-services/main.go:335-385 | events are numbered 0, 1, 2, ... and followed by exactly one end or failure |
| Coalescer.DeltasFallShort | internal/ai/proxy_transport.go:257-264 | the live text falls short by exactly what was held back at the end |
| Coalescer.DeltasExactly | internal/ai/proxy_transport.go:257-264 | for a given flush timing the live text is complete exactly if nothing was held back |
| Coalescer.LiveExactly | internal/ai/proxy_transport.go:257-264 | the live text is complete for every flush timing the timer allows exactly if the last text before the terminal chunk or failure reaches the flush size, or there is none, or the stream just ends |
| Coalescer.DeltasLost | internal/ai/proxy_transport.go:257-264 | a short text followed by the terminal chunk is never shown live |
| Connections.NextKeeps | cmd/cashflux-services/main.go:46-119 | every step keeps: cached connections open, of their key and of the current epoch; one owner each; none lost |
| Connections.RunKeeps | cmd/cashflux-services/main.go:46-119 | so does every interleaving, and no connection is ever reopened or forgotten |
| Connections.EveryRun | cmd/cashflux-services/main.go:39-119 | from the empty cache the invariant holds in every reachable state |
| Connections.HandedIsOpen | cmd/cashflux-services/main.go:46-76 | a connection given to a caller is open unless there was a reset since it was dialled |
| Connections.ResetClosesEverything | cmd/cashflux-services/main.go:105-119 | after a reset, whatever was dialled before is closed once nobody holds it any more |
| ConnectionCalls.TurnedAwayExactly | cmd/cashflux-services/main.go:46-76 | under any interleaving a call that is over was turned away exactly if its dial failed, it was cancelled, or a reset came between its look at the cache and its commit; otherwise it was given a connection dialled for its key |
| ConnectionCalls.CallerGoesOn | cmd/cashflux-services/main.go:46-76 | a call under way always has a next step, and at most four are ahead |
| RequestMachine.EndingOf | internal/ai/transport.go:410-487 | an attempt that ends leaves either its callback or one retry timer, as a plain retry loop decides |
| RequestMachine.StepKeeps | internal/ai/transport.go:367-495 | every event keeps one live attempt or timer, shrinks the work left, and a cancelled request neither calls back nor fetches |
| RequestMachine.RunKeeps | internal/ai/transport.go:367-495 | so does every run |
| RequestMachine.EveryRun | internal/ai/transport.go:367-495 | at most one callback, the one the plain retry loop reaches; at most retries plus one fetches; boundedly many events |
| RequestMachine.NeverStuck | internal/ai/transport.go:367-495 | without a cancel, when nothing is pending exactly one callback was made |
| RequestMachine.SilentAfterCancel | internal/ai/transport.go:378-394 | after a cancel no callback and no fetch, and no timer is left |
| RequestMachine.RetryLoopSnoc | internal/ai/ai.go:352-369 | one more ending is judged by its own attempt number, once all before it were retried |
| RequestTrace.LogIsTrue | internal/ai/transport.go:429-487 | over every run, attempt k is logged as answered with the status that came and the body read after it, or as rejected, late exactly if its deadline had fired before |
| RequestTrace.RetryLoopMeans | internal/ai/ai.go:354-369 | the loop ends with the first ending that is below 400 or neither 429, 500 or more, nor a rejection, or with the last attempt allowed |
| RequestTrace.CallbackIsTrue | internal/ai/transport.go:367-495 | so the callback of every run is what the events of the deciding attempt say, in its words, and all attempts before ended in 429, 500 or more, or a rejection |
| ToolChat.NetKeeps | internal/ai/transport.go:123-165 | every network event keeps: only the last request alive, at most one reply, the one the plain form says |
| ToolChat.CancelKeeps | internal/ai/transport.go:142-145 | so does a cancel, and it says nothing to the caller |
| ToolChat.EveryChat | internal/ai/transport.go:123-165 | at most one reply, that of two retry loops in a row; at most twice the fetches, and no more than once for a model known to reject the effort |
| ToolChat.ChatSilentAfterCancel | internal/ai/transport.go:142-145 | the caller hears nothing after its cancel |
| ToolChat.ChatNeverStuck | internal/ai/transport.go:123-165 | without a cancel, when nothing is pending the caller has heard exactly one reply |
| ChatTrace.ChatLogsAreTrue | internal/ai/transport.go:123-165 | over every run of a chat the logs that its reply follows from tell what happened to each of its requests |
| ChatTrace.ReplyIsTrue | internal/ai/transport.go:123-165 | whatever a chat replies is the body of a response below 400, parsed, or the error of an attempt that was not to be repeated, each as the events tell it, or that the request could not be built |
| ChatTrace.NotedExactly | internal/ai/transport.go:152-159 | a model is remembered as rejecting the effort exactly if it was before or its first request, made with one, failed with such an error |
| AgentLoop.LookupFinds | internal/agent/agent.go:76-81 | looking tools up one by one finds the tool of a name, nothing exactly if there is none |
| AgentLoop.Registry.constructor | internal/agent/agent.go:63-63 | a registry starts empty |
| AgentLoop.Registry.Register | internal/agent/agent.go:66-73 | the name stands for the new tool, every other name for what it did, and the order of names is kept |
| AgentLoop.Registry.Get | internal/agent/agent.go:76-81 | the index answers as looking through the tools does |
| AgentLoop.Registry.Execute | internal/agent/agent.go:95-112 | unknown tool, invalid arguments and handler errors all become results with the call's id and name |
| AgentLoop.Registry.ExecuteAll | internal/agent/agent.go:200-210 | one result and one message per call, in order |
| AgentLoop.Run | internal/agent/agent.go:173-220 | the transcript replays, its stop reason is why there is no further step, and its token total is the sum in 64 bits |
| AgentLoop.EveryStep | internal/agent/agent.go:173-220 | at step k the model saw the history and the encoding of steps 0 to k-1; results and messages match the calls one for one by id, name and order |
| AgentLoop.EveryCall | internal/agent/agent.go:95-112 | in every run the tool named by a call answers that call's arguments at its step and position, arguments that are no JSON and unknown names fail with their own errors |
| AgentLoop.CallRuns | internal/agent/agent.go:95-112 | a call of a known tool yields the handler's content and error, or that the arguments are invalid |
| AgentLoop.StepTells | internal/agent/agent.go:199-210 | a step adds to the conversation the model's text and then for each result its content or, after "error: ", its error |
| AgentLoop.StepLimit | internal/agent/agent.go:173-180 | at most the caller's number of steps, or eight |
| AgentLoop.RunUnique | internal/agent/agent.go:173-220 | model, tools, history and options admit exactly one such transcript |
| AgentLoop.BudgetExactly | internal/agent/agent.go:173-220 | every run of every model that reports at most M tokens a turn keeps the total exact, and under the budget before the last turn, exactly if M <= 2^63 - budget |
| AgentLoop.FrugalTotals | internal/agent/agent.go:191-216 | within that bound the totals of all steps stay in 64 bits and all but the last turn stay under the budget |
| AgentLoop.BudgetMissed | internal/agent/agent.go:191-216 | above it a model that creeps up to the budget and then wraps the total is asked once more |

## Left out

- User interface, encryption, key handling, App Lock, request builders, JSON codecs and the remaining packages: no part of these models; they are thin over libraries or would add only easy members.
- JSON payloads, JSON validity and white-space trimming are functions given from outside; the results hold for all of them.
- Error texts other than the two of a rejected request and those of tool results; delays of the retry backoff; the 45 second length of the deadline.
- Time of day, time zones and daylight saving: calendar days are integers, and instants are integer nanoseconds in the balance history and the age of money, where the saturation of Go durations is kept.
- IEEE rounding in the percentage and in the proportional shares: both are exact over the reals.
- In the allocation each amount is an unbounded integer; what is available and what remains wrap as in the source.
- The limit of 5000 schedule steps is a parameter; an unknown cadence stands as monthly, as the source treats it.
- `ProjectFor`, `ProjectPairFor` and `statedStart`: they turn the sign of a liability's start balance by its reconciliation convention and then project.
- Tool calls, reasoning and finish reasons in the coalescer: the forwarder copies content, usage and done alone. Content is a sequence of bytes, counted as such.
- Re-use of a request id in the services worker, and its other request kinds.
- The service worker's completeness test of one cache is read in one piece, and the build a fetch is for is settled when it begins. Its message handler, navigation fallback and legacy cache contents are not modelled.
- The responses endpoint and its streaming variant (`postResponses`, `postResponsesStream`): the same machine as `postCompletions` with other bodies.
- `Specs` of the tool registry; handlers that register tools while a run is going on.
- SseFraming.DrainEncoded: lines that hold a line feed or end in a carriage return are outside the framing round trip, since no framing can carry them.
- BuildHandover.ActivationExactly: a search for a fallback cache that is under way when the activation begins, or a fetch that holds a cache evicted earlier, counts as one of another build and is not among the fetches admitted.
- Connections.NextKeeps: dialling is one step that succeeds or fails; timeouts within it, the trimming of endpoint and token into a key, and wrap-around of the 64-bit epoch are not modelled.
