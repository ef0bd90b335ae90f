# CurrencyTracker: favourites, chart, alerts and conversion log in Dafny

This project models the state and decision logic inside four SwiftUI screens of the
CurrencyTracker app, and proves what each one does:

- **Favourites** (`favorites.dfy`, `Views/FavoriteRateView.swift`). This is the ordered
  list of currency pairs, with Add, swipe-delete and `@AppStorage` save/load. It also
  covers the refresh `fetchRates`:
  - it raises `isLoading` and empties `latestRates`/`previousRates`;
  - it issues one latest-rate request per pair;
  - each successful latest response whose date parses issues a request for the day
    before that date (when the date does not parse, nothing more is issued);
  - every completion block bumps a counter local to the call, against a total of twice
    the number of pairs.

  The completion blocks run on the main queue, so they are modelled as a sequence of
  settlement events (`Event`) applied by `Settle` and folded by `Replay`. The per-pair
  order "latest before previous" follows from the model itself: a previous-day request
  exists only once its latest request has settled. The screen object is the class
  `FavoriteRatesView`. Each call's counter is the class `RequestCounter`. The methods
  `LatestCompleted` and `PreviousCompleted` are the two completion blocks, each proved
  equal to `Settle`.
- **Chart** (`chart.dfy`, `Views/GraphView.swift`). The decoded `date -> {currency ->
  rate}` dictionary becomes a date-ordered series with its lowest and highest rate
  (`Transform`). A drag selects the point nearest in time to the probed date
  (`ClosestIndex`). The screen is the class `GraphView`.
- **Alerts** (`alerts.dfy`, `Views/AlertSettingsView.swift`):
  - the one-shot threshold notification (`ThresholdRequest`, `ThresholdCheck`);
  - the repeating daily notification under a fixed identifier (`DailyRequest`);
  - the time picker's setter.

  `UNUserNotificationCenter` is modelled as the list of requests added to it
  (`NotificationCenter`).
- **Conversion log** (`logs.dfy`, `Views/LogsView.swift`). This covers the amount guard
  and the entry built from a response (`NewEntry`). On success the entry is appended and
  the log is saved and the form cleared; every completion path lowers the flag. The
  history is shown newest first (`History`).

`common.dfy` holds the shared vocabulary:

- `Option`;
- the abstract outcome of a request and its JSON decode, `Fetch` (no data, undecodable,
  or a decoded body);
- a parsed Swift `Double`, `FloatValue` (NaN or a finite real);
- the content of an `@AppStorage` data slot, `Stored` (unreadable or an encoded value).

`sorting.dfy` is a generic insertion sort by a real-valued key, with sortedness and
permutation proved. It plays the role of Swift's `sorted(by:)`.

Dates are abstract in this model:
- favourites use day numbers (`Day = int`);
- the chart and the log use seconds since 1970 (`Instant = real`);
- `String.toDate`/`DateFormatter` are a parameter `toDate: string -> Option<...>`, so
  every result holds whatever the date parser does.

Rates and amounts are `real`.

Three behaviours of the code shape the favourites and alerts, and the model keeps each
of them as written:
- `FavoritePair` equality is synthesised over the fresh `id` as well as the currencies.
  The `contains` check in Add therefore never finds a newly built pair, and pairs with
  the same currencies accumulate (`FreshPairIsAlwaysAppended`,
  `StructuralDuplicateIsKept`).
- A refresh carries no generation tag. Its counter is local to the call, but the two
  dictionaries and the flag are shared, so a late completion of an earlier call can
  lower the flag of a newer one (`StaleCallClearsNewerFlag`).
- Alert rules are not stored anywhere: the threshold and the daily settings are single
  `@AppStorage` values. The code never calls a cancel or remove API of the notification
  centre; it only calls `add`. Whether an `add` under an existing identifier (the daily
  alert's fixed one) replaces the pending request is up to the library (see
  "## Left out").

## Model

| member | source | states |
|---|---|---|
| Favorites.Key | Views/FavoriteRateView.swift:144 | The key is the base, then `_`, then the target: its length and its three parts are fixed by the pair. |
| Favorites.KeyIdentifiesCurrencies | Views/FavoriteRateView.swift:80 | For currency codes of one length, two pairs share a key exactly when they name the same currencies, so same-currency pairs share their quotes. |
| Favorites.AddPair | Views/FavoriteRateView.swift:51-60 | The old list is a prefix of the new one, which is at most one longer. It grows exactly when base and target differ and no element equals the new pair, and the appended element is that pair. |
| Favorites.FreshPairIsAlwaysAppended | Views/FavoriteRateView.swift:53-55 | When base and target differ and the identifier is fresh, Add always appends, whatever currencies the list already holds. |
| Favorites.StructuralDuplicateIsKept | Views/FavoriteRateView.swift:3-7 | A concrete list where Add leaves two distinct pairs with the same base and target side by side: the `contains` check does not deduplicate. |
| Favorites.FirstIndex | Views/FavoriteRateView.swift:95 | `firstIndex(of:)`: none exactly when the pair is absent. Otherwise it is an in-range index holding the pair, with no earlier occurrence. |
| Favorites.RemoveOffsets | Views/FavoriteRateView.swift:130 | Length bound only: the result is no longer than the list (see "## Left out"). |
| Favorites.RemoveSingleOffset | Views/FavoriteRateView.swift:129-130 | Removing the single offset `k` leaves exactly the elements before and after `k`, in order. |
| Favorites.DeletePair | Views/FavoriteRateView.swift:94-97 | An absent pair leaves the list unchanged. A present pair is removed at its first index, all others keep their order, and the length drops by one. The multiset loses exactly one copy of the pair. |
| Favorites.QuoteFor | Views/FavoriteRateView.swift:147-149 | A quote exists exactly when the response decodes and holds the target. It is that rate with the response's date. |
| Favorites.BeginFetch | Views/FavoriteRateView.swift:135-145 | Flag raised and both dictionaries emptied. Total is twice the pair count, the counter is 0, and exactly one latest request per pair is in flight with no previous-day request. |
| Favorites.BeginFetchConsistent | Views/FavoriteRateView.swift:140-143 | A fresh refresh is consistent, its flag agrees with its counter, and it owes exactly twice the number of pairs. |
| Favorites.Settle | Views/FavoriteRateView.swift:146-194 | A completion block keeps the call's pairs and total and strictly increases its counter. |
| Favorites.SettleEffects | Views/FavoriteRateView.swift:146-194 | Per completion. A latest success records its quote under the pair's key, counts 1, leaves the flag and `previousRates` alone, and puts the day before in flight only when the date parses. A latest failure writes neither dictionary and counts 2. A previous completion never touches `latestRates`, records its quote only on success, and counts 1 either way. |
| Favorites.SettleAccounting | Views/FavoriteRateView.swift:153-192 | One completion keeps the pass consistent. The counter grows by exactly what stops being owed, less one when a parsed-but-undated latest success strands a unit. The flag is cleared exactly when a checking handler (every kind except a latest success) lands the counter on the total. |
| Favorites.ReplayAccounting | Views/FavoriteRateView.swift:146-194 | Along any possible trace, the pass stays consistent and the flag agrees with the counter. Counter + owed + stranded units is conserved. |
| Favorites.CounterNeverExceedsTotal | Views/FavoriteRateView.swift:140-141 | For every possible trace of a refresh, counter + owed + stranded units equals twice the pair count, so the counter never exceeds the total. |
| Favorites.LoadingBeforeEveryEvent | Views/FavoriteRateView.swift:136-191 | For a trace of one refresh's own completions, when no earlier refresh still has requests in flight: while any request of the call is in flight the flag is raised, so before every event of the trace `isLoading` is true. (StaleCallClearsNewerFlag shows an earlier call breaking this.) |
| Favorites.LoadingClearsAtLastSettlement | Views/FavoriteRateView.swift:172-191 | For a trace of one refresh's own completions, when no earlier refresh still has requests in flight: with at least one pair, every latest date parsing and nothing left in flight, the trace is non-empty and ends with the counter at the total and the flag down. Together with LoadingBeforeEveryEvent, the flag clears exactly at the last settlement. |
| Favorites.UnparseableDateHangs | Views/FavoriteRateView.swift:158-185 | Once a latest success has a date that does not parse, the counter stays below the total and `isLoading` stays true, whatever else settles. |
| Favorites.NoPairsNoSettlement | Views/FavoriteRateView.swift:141-143 | With no pairs the flag is raised and no event can happen, so it is never cleared. |
| Favorites.PreviousRequestIsForDayBefore | Views/FavoriteRateView.swift:158-164 | A latest success dated `day` records its quote and issues the previous-day request for `day - 1`: the day before the response's date, not before today. |
| Favorites.StaleCallClearsNewerFlag | Views/FavoriteRateView.swift:135-191 | A concrete pair of calls: the older call's latest failure, landing after a newer call started, clears the shared flag. The newer call still has 4 units owed. |
| Favorites.RowsOf | Views/FavoriteRateView.swift:78-81 | Every row is a listed pair whose key is in both dictionaries, carrying those two quotes. Every such pair has its row. |
| Favorites.RowsOfAppend | Views/FavoriteRateView.swift:79-81 | Rows follow list order: the rows of `front + back` are the rows of `front` followed by the rows of `back`. |
| Favorites.RowsOfSingle | Views/FavoriteRateView.swift:79-81 | One pair gives exactly one row, with its latest and previous quotes, when its key is in both dictionaries, and no row otherwise. |
| Favorites.Render | Views/FavoriteRateView.swift:64-81 | Placeholder exactly when there are no pairs, spinner exactly when there are pairs and the flag is up; otherwise the rows. |
| Favorites.RequestCounter.constructor | Views/FavoriteRateView.swift:140-141 | A call's counter starts at 0 with total twice the pairs and the issued latest requests in flight. |
| Favorites.FavoriteRatesView.constructor | Views/FavoriteRateView.swift:10-14 | The storage slot holds what an earlier launch stored (unreadable on first launch); no pairs, empty dictionaries, not loading. |
| Favorites.FavoriteRatesView.SaveFavorites | Views/FavoriteRateView.swift:117-121 | The storage slot holds the encoded list. |
| Favorites.FavoriteRatesView.LoadFavorites | Views/FavoriteRateView.swift:123-127 | The stored list replaces the current one when it decodes; otherwise the current list is kept. |
| Favorites.FavoriteRatesView.FetchRates | Views/FavoriteRateView.swift:135-145 | The loop issues one latest request per pair. The screen state and the fresh counter are exactly BeginFetch of the current list. |
| Favorites.FavoriteRatesView.Add | Views/FavoriteRateView.swift:51-60 | The list becomes AddPair of the old list. A refresh starts (with save) exactly when the list changed; otherwise nothing changes. |
| Favorites.FavoriteRatesView.DeletePairs | Views/FavoriteRateView.swift:129-133 | The offsets are removed, the list is saved, and a refresh of the new list starts. |
| Favorites.FavoriteRatesView.SwipeDelete | Views/FavoriteRateView.swift:94-97 | The list becomes DeletePair of the old list. When the pair was present, the list is saved and a refresh of the new list starts: the screen and the fresh counter are BeginFetch of it. Otherwise nothing changes. |
| Favorites.FavoriteRatesView.LatestCompleted | Views/FavoriteRateView.swift:146-194 | The latest request's completion updates the screen and the call's counter exactly as Settle does for a latest event. |
| Favorites.FavoriteRatesView.PreviousCompleted | Views/FavoriteRateView.swift:165-183 | The previous-day request's completion updates the screen and the counter exactly as Settle does for a previous event. |
| Sorting.InsertBy | Views/GraphView.swift:155 | Inserting into a sorted sequence gives a sorted sequence one longer, with the same elements plus the new one. |
| Sorting.SortBy | Views/GraphView.swift:155 | `sorted(by:)` on a key: the result is ordered by the key and is a permutation of the input. |
| Chart.ParsePoints | Views/GraphView.swift:148-154 | Entries whose date does not parse are dropped. Every other entry yields its point, with rate 0 when the target is absent. Every point comes from some entry. No more points than entries, and as many exactly when every date parses. |
| Chart.ParsePointsLength | Views/GraphView.swift:148-154 | There are exactly as many points as entries whose date parses. |
| Chart.PointMultiplicity | Views/GraphView.swift:148-154 | Each point occurs exactly as often as there are entries yielding it: one point per parseable entry, duplicates kept. |
| Chart.MinRate | Views/GraphView.swift:157 | 0 for an empty series; otherwise a rate of the series that is at most every rate. |
| Chart.MaxRate | Views/GraphView.swift:158 | 0 for an empty series; otherwise a rate of the series that is at least every rate. |
| Chart.Transform | Views/GraphView.swift:148-158 | The series is sorted by date and a permutation of the parsed points. Both bounds are 0 when it is empty; otherwise every rate lies within them and both are attained. |
| Chart.SeriesHoldsExactlyTheParsedEntries | Views/GraphView.swift:148-155 | The series holds every parseable entry's point and only points of entries. Its length is the number of parseable entries, and each point occurs as often as there are entries yielding it. |
| Chart.ClosestIndex | Views/GraphView.swift:90-93 | `min(by:)` on time distance: none exactly for an empty series. Otherwise an in-range index at minimal distance, strictly nearer than every earlier point (the first on ties). |
| Chart.GraphView.constructor | Views/GraphView.swift:5-12 | Defaults: USD to JPY, no rates, not loading, bounds 0, no selection. |
| Chart.GraphView.FetchRates | Views/GraphView.swift:124-125 | The flag is raised before the request is issued. |
| Chart.GraphView.ChartArrived | Views/GraphView.swift:142-171 | No data: no state touched, the flag stays as it was. Decode error: series and bounds unchanged, flag down. Decoded body: series and bounds are Transform of the body, flag down. |
| Chart.GraphView.DragChanged | Views/GraphView.swift:87-97 | With a probed date and a non-empty series, the selection is the nearest point; otherwise it is unchanged. |
| Chart.GraphView.DragEnded | Views/GraphView.swift:98-100 | The selection is cleared. |
| Alerts.ThresholdRequest | Views/AlertSettingsView.swift:134-147 | A request exists exactly when the response decodes, holds the target, and the rate is strictly below the threshold (never against NaN). It is one-shot after 5 seconds under the fresh identifier, titled "🎯 Threshold Alert Triggered!", with the base, rate and target. |
| Alerts.ThresholdCheck | Views/AlertSettingsView.swift:128-138 | From the typed text: a request exists exactly when the text parses to a finite number above the decoded target rate. Text that does not parse makes none. |
| Alerts.EqualRateDoesNotFire | Views/AlertSettingsView.swift:138 | A rate equal to the threshold does not fire. |
| Alerts.ThresholdIdentifierIsNotDaily | Views/AlertSettingsView.swift:145 | A UUID-string identifier (36 characters) never equals "dailyRateNotification". |
| Alerts.DailyRequest | Views/AlertSettingsView.swift:156-172 | A request exists exactly when the response decodes and holds the target. It repeats at the stored hour and minute under "dailyRateNotification", titled "📊 Daily Exchange Rate". |
| Alerts.NotificationCenter.Add | Views/AlertSettingsView.swift:147 | Adding a request appends it to the centre's list and removes nothing. |
| Alerts.AlertSettingsView.constructor | Views/AlertSettingsView.swift:6-14 | The first-launch state, when nothing is stored: USD, JPY, "140", USD, JPY, 8:00. |
| Alerts.AlertSettingsView.CheckAndSendThresholdNotification | Views/AlertSettingsView.swift:128-134 | The request is issued, carrying the parsed threshold, exactly when the text parses. |
| Alerts.AlertSettingsView.ThresholdArrived | Views/AlertSettingsView.swift:134-148 | The centre gains exactly ThresholdRequest's request, if any. No setting is written and nothing is removed. |
| Alerts.AlertSettingsView.DailyArrived | Views/AlertSettingsView.swift:156-173 | The centre gains exactly DailyRequest's request, if any. No setting is written and nothing is removed. |
| Alerts.AlertSettingsView.SetAlertTime | Views/AlertSettingsView.swift:88-91 | The picked hour and minute are stored, 8 and 0 when absent. |
| Logs.NewEntry | Views/LogsView.swift:115-128 | An entry exists exactly when the response decodes and holds the target. Its base, target, amount and note come from the form, its rate is the target rate, and its converted amount is amount times rate. |
| Logs.History | Views/LogsView.swift:69 | The history is in non-increasing timestamp order and is a permutation of the log. |
| Logs.LogView.constructor | Views/LogsView.swift:4-12 | The storage slot holds what an earlier launch stored (unreadable on first launch); empty log, date now, USD to JPY, empty amount and note, not loading. |
| Logs.LogView.FetchAndLog | Views/LogsView.swift:92-106 | An amount that does not parse, or is NaN, returns with the flag unchanged and no request. Otherwise the flag is raised and the parsed amount is carried. |
| Logs.LogView.RateArrived | Views/LogsView.swift:106-147 | On every path the flag goes down. The log gains exactly NewEntry's entry at the end. On success the log is saved and the form cleared; on every failure path, storage and form are unchanged. |
| Logs.LogView.SaveLogs | Views/LogsView.swift:151-155 | The storage slot holds the encoded log. |
| Logs.LogView.LoadLogs | Views/LogsView.swift:157-161 | The stored log replaces the current one when it decodes; otherwise the log is unchanged. |
| Logs.LogView.ClearForm | Views/LogsView.swift:163-167 | Amount and note empty, date reset to now. |

## Left out

- Favorites.RemoveOffsets: its contract states only that the result is no longer than the input. Removal of a single offset, the only use the screen makes of it, is proved exactly by RemoveSingleOffset; order preservation for many offsets at once is not stated.
- HTTP transport (`URLSession`) and JSON encoding and decoding are not modelled. A response is an abstract `Fetch` outcome (no data, undecodable, decoded body), and `JSONEncoder` is taken never to fail.
- `URL(string:)` guards (Views/GraphView.swift:137-140, Views/LogsView.swift:101-104, Views/AlertSettingsView.swift:132 and 154) and the force-unwrapped `URL(string:)!` in the refresh (Views/FavoriteRateView.swift:145 and 164), which would trap rather than return, are taken to succeed, since they only interpolate currency codes and a formatted date.
- `DateFormatter`, `Calendar` and `String.toDate` are the parameter `toDate`, and "one calendar day earlier" is `day - 1` on day numbers. The formatted previous-day string and the request URLs built from dates are not modelled.
- Threading: every state write runs on the main queue, so the completion blocks are a serialized event sequence. When a latest request succeeds, its handler queues the counting block on the main queue and then issues the previous-day request; whether that block runs before or after the request is issued is a race the code does not settle. The model issues the request in the same step as the counting block, which is sound because the previous-day request's own completion block is queued only after that request completes, and the main queue runs blocks in order, so it always runs after the counting block.
- `UNUserNotificationCenter` is the list of added requests. Permission prompts, delivery, and whether re-adding an identifier replaces a pending request are library behaviour, and are not modelled.
- Floating point: rates and amounts are reals. `%.2f`/`%.4f` formatting, the change symbol and colour, the notification body text, rounding of `amount * rate` and infinite values from `Double(_:)` are not modelled; NaN is modelled where it changes a decision (the threshold and amount guards).
- Sorting.SortBy: the order of points or entries with equal keys is not stated, as `sorted(by:)` does not promise stability; only sortedness and permutation are proved.
- The `rates` dictionary of the chart response is taken as a sequence in its iteration order, which Swift leaves unspecified; nothing proved depends on it.
- Alerts.AlertSettingsView.constructor: builds only the first-launch state; settings stored by an earlier launch are not parameters, but no modelled operation depends on the initial values.
- Fresh identifiers (`UUID()`), the current time (`Date()`) and the text parser (`Double(_:)`) are parameters of the operations that use them.
- The chart's scroll position, axis marks and annotations, the pickers and all other layout are not modelled. The same holds for the screens outside these four: DashboardView, HomeView, TermOfUseView, ContentView, the app entry point and the UI tests.
- `HistoricalRate` and `ChartExchangeRateResponse` also appear in Models/ChartModel.swift, and `LogEntry` in Models/LogEntry.swift; they are the same records as the datatypes here. `UserSettings` is unused by the modelled screens.
