# Penny-stock screener: a verified model of the screening core

This project models the screening core of the PennyGems penny-stock screener in Dafny:

- The market-session resolver.
- The derivation of a quote snapshot from the market-data provider's fields.
- The breakout score.
- The BUY/WATCH/IGNORE classifier.
- The admission filter.
- The scan that ties them together and stable-sorts the survivors by percent change.
- The alert dispatcher, which deduplicates notifications against a ledger of `session:ticker:YYYYMMDD` keys.
- From the web application: the threshold-override merge of the JSON endpoint, its session default, and one cycle of the background alerts loop.

All quantities are `real`s, and Python's `None` is `Option.None`. Where the source tests a field for truthiness, a zero counts as absent, and so it does in the model. The parts that reach the outside world are parameters:

- The provider is a function from ticker to an optional raw quote. `None` stands for any provider error.
- The clock is a time of day in minutes since midnight US/Eastern, which decides the session. Today's date is a separate string: the source takes it from the server's local clock, not from US/Eastern.
- The ledger file is an optional set. `None` stands for a missing or unreadable file.
- The two environment variables are optional strings.
- The outcome of each notification send is a function from the row's position to a boolean.
- The query string is a map from parameter name to the optional result of `float()`.

Files:

- `wrappers.dfy`: module `Wrappers`, the `Option` type.
- `screener.dfy`: module `Screener`, the pure policy of `screener.py`.
- `stable_sort.dfy`: module `StableSort`, the stable descending sort that `list.sort(..., reverse=True)` performs.
- `scan.dfy`: module `ScanOrchestrator`, `scan` as a loop method, its specification function and the lemmas about it.
- `alerts.dfy`: module `Alerts`, `send_telegram_alerts` as a loop method, its specification and the ledger lemmas.
- `api.dfy`: module `Api`, the override merge and `api_screener` of `main.py`, and one alerts-loop cycle.

Notes on what the code does:

- At exactly 16:00 the session is POST, not REG, because the after-hours window is tested first.
- The breakout score never exceeds 90, although the code caps it at 100 with `min(score, 100.0)`.
- The classifier does not imply admission. It ignores the market cap and the percent and volume minima, so a snapshot can be a BUY that the filter rejects (`Screener.ClassifyDoesNotImplyAdmits`).
- A percent change of exactly 0 sorts like a missing one, at -9999. A change below -9999 would sort after both.
- The alerts loop passes the literal session `"AUTO"` to the dispatcher. Its ledger keys therefore begin with `AUTO:` whatever session the clock resolves, so one key covers a ticker for the whole day.
- Formatting the alert text runs outside the `try`. A row among the first 20 that lacks a price, percent change or volume, and whose key is not yet in the ledger when the loop reaches it, makes the whole call raise, after the sends already made and without writing the ledger (`Alerts.UnformattableNewRowRaises`). Such a row whose key is already in the ledger is skipped before it is formatted. Scan rows under a positive volume minimum, as in the alerts loop with the defaults, always have all three (`Alerts.ScanRowsFormattable`, `Api.AlertsCycle`).

## Model

| member | source | states |
|---|---|---|
| `Screener.SessionAt` | screener.py:27-35 | PRE exactly before 09:30, REG exactly from 09:30 up to but excluding 16:00, POST from 16:00 on (16:00 itself and everything after 20:00 included); always one of the three |
| `Screener.ResolveSession` | screener.py:117-119 | a missing or "AUTO" session is the clock's session (`SessionAt` of the time of day); any other string is used as given |
| `Screener.TruncateTowardZero` | screener.py:70 | `int()` of a float: toward zero, never more than one away, never past the argument |
| `Screener.Derive` | screener.py:57-74 | percent change present iff previous close and last price are both present and non-zero, and then previous close times (1 + change/100) is the price; relative volume present iff the average and day volume are non-zero and the average is positive, and then relative volume times average is the day volume; volume present iff day volume is; the result keeps the snapshot invariant |
| `Screener.FetchSnapshot` | screener.py:47-76 | a snapshot exactly when the provider answered, and then it is the snapshot derived from the provider's quote, carrying the ticker and session and keeping the invariant |
| `Screener.Clamp` | screener.py:81-83 | `max(lo, min(x, hi))` lies in [lo, hi], is x when x is already in range, hi above the range and lo below it |
| `Screener.RoundHalfEven` | screener.py:87 | `round()` is within 1/2 of its argument and breaks ties toward the even integer |
| `Screener.RoundHalfEvenMonotone` | screener.py:87 | rounding preserves order |
| `Screener.RawScore` | screener.py:79-86 | the unrounded score is in [0, 90], and at least 10 for a price in [0.50, 2.00] |
| `Screener.BreakoutScore` | screener.py:78-87 | the score is an integer in [0, 90], within 1/2 of the raw score, and at least 10 in the bonus price band |
| `Screener.BreakoutScoreMonotoneInMove` | screener.py:80-81 | a larger percent change never lowers the score |
| `Screener.BreakoutScoreCapsMove` | screener.py:81 | moves beyond 50 percent all score alike |
| `Screener.Classify` | screener.py:89-98 | IGNORE whenever the price (missing as 0) is outside the band; BUY iff in band, score at least 75 and relative volume at least the minimum; WATCH iff in band, score at least 55 and not BUY; IGNORE iff out of band or score below 55 |
| `Screener.SignalNeedsMove` | screener.py:89-98 | any signal but IGNORE needs a move of at least 14.5 percent; BUY needs at least 34.5 percent and relative volume at least 1.45, whatever the limits |
| `Screener.Admits` | screener.py:100-115 | rejects a snapshot without price or percent change; otherwise admits iff price in band, move and volume (missing as 0) at least the session's minima (regular ones only for "REG") and market cap absent or within the maximum |
| `Screener.NonRegularSessionsScreenAlike` | screener.py:109-110 | every session string other than "REG" is filtered exactly as PRE and POST are |
| `Screener.AbsentMarketCapNeverBlocks` | screener.py:104-115 | dropping the market cap never turns an admission into a rejection, and without one only price, move and volume decide |
| `Screener.AbsentVolumeIsZero` | screener.py:103 | a missing volume is filtered as a volume of 0 |
| `Screener.ClassifyDoesNotImplyAdmits` | screener.py:89-115 | some provider quote derives a snapshot that is a BUY on the defaults yet rejected by the filter (market cap over the maximum) |
| `Screener.WorkedExamples` | screener.py:78-115 | on the defaults in REG, for snapshots derived from provider quotes: 18 percent with relative volume 2.1 scores 49 and is ignored; 35 with 2.5 scores 70, WATCH; 40 with 2.8 at price 1.00 scores 78, BUY; all three pass the filter |
| `StableSort.Insert` | screener.py:133 | insertion adds exactly one element and keeps the multiset; the new head is the inserted element or the old head |
| `StableSort.InsertSorted` | screener.py:133 | inserting into a non-increasing list keeps it non-increasing |
| `StableSort.InsertWithKey` | screener.py:133 | inserting into a sorted list appends the element to the run of its own key and leaves the other runs unchanged |
| `StableSort.SortDesc` | screener.py:133 | the sort returns a permutation of its input in non-increasing key order |
| `StableSort.SortDescStable` | screener.py:133 | the sort is stable: for every key, the elements with that key keep their input order |
| `ScanOrchestrator.SortKey` | screener.py:133 | the key is the percent change, except that a missing or zero change is -9999 |
| `ScanOrchestrator.RowFor` | screener.py:123-131 | a ticker yields a row iff the provider answered and the derived snapshot is admitted and not ignored; the row holds that snapshot, its classifier signal and its score |
| `ScanOrchestrator.Survivors` | screener.py:121-132 | the loop collects at most one row per ticker |
| `ScanOrchestrator.ScanResult` | screener.py:117-134 | a scan returns no more rows than the universe has tickers |
| `ScanOrchestrator.Scan` | screener.py:117-134 | the loop and the final sort compute exactly the scan result for the resolved session |
| `ScanOrchestrator.SurvivorsSound` | screener.py:121-131 | every collected row is the row of some ticker of the universe |
| `ScanOrchestrator.SurvivorsComplete` | screener.py:121-131 | every ticker that yields a row has it collected |
| `ScanOrchestrator.ScanEntriesSound` | screener.py:117-134 | every returned row came from a ticker whose fetch succeeded; it is admitted by the filter, has price and percent change, carries the resolved session, a BUY or WATCH signal from the classifier and its snapshot's breakout score |
| `ScanOrchestrator.ScanComplete` | screener.py:117-134 | no ticker that yields a row is missing from the result |
| `ScanOrchestrator.CappedBuyNotScanned` | screener.py:117-134 | a universe whose only ticker quotes a BUY over the market-cap maximum scans to an empty result |
| `ScanOrchestrator.ScanOrdered` | screener.py:133 | the result is a permutation of the survivors, sorted non-increasing by the key, with equal keys in universe order |
| `Alerts.AlertKey` | screener.py:152 | a key starts with the session and a colon, then the ticker, and ends with a colon and the day |
| `Alerts.AlertKeySeparatesTickers` | screener.py:152-153 | within one session and day, two tickers with the same key are the same ticker, so each ticker is deduplicated on its own |
| `Alerts.Process` | screener.py:151-166 | the loop never shrinks the ledger and sends at most once per row |
| `Alerts.DeliveredKeysSnoc` | screener.py:161-164 | a row's key joins the delivered keys exactly when its send succeeds |
| `Alerts.ProcessLedger` | screener.py:151-166 | when nothing raised, the ledger is the loaded one plus the keys of the rows whose send succeeded |
| `Alerts.ProcessCountsAdded` | screener.py:149-166 | the counter equals the number of keys added to the ledger |
| `Alerts.AttemptsAreNew` | screener.py:153-154 | no key already in the loaded ledger is ever sent |
| `Alerts.AttemptsFromRows` | screener.py:151-163 | every send is for the key of one of the considered rows |
| `Alerts.AllDeliveredSendsOnce` | screener.py:153-164 | when every send succeeds, every sent key is recorded and no key is sent twice |
| `Alerts.ProcessRaisedSticks` | screener.py:155-160 | after formatting raised, no later row has any effect |
| `Alerts.FormattableNeverRaises` | screener.py:155-160 | rows that all have price, percent change and volume never make the loop raise |
| `Alerts.UnformattableNewRowRaises` | screener.py:151-160 | a considered row that is not yet in the ledger and lacks a price, percent change or volume makes the loop raise, once no earlier row has raised |
| `Alerts.Considered` | screener.py:151 | exactly the first min(n, 20) of the n rows are considered, in order |
| `Alerts.DispatchSpec` | screener.py:136-172 | skipped, with no ledger read or written, iff credentials are missing or the rows are empty; otherwise the written ledger is a superset of the loaded one, equals it plus the delivered keys of the first 20 rows, and the return value is the number of keys added; no send is for a loaded key; formattable rows never raise |
| `Alerts.SendAlerts` | screener.py:136-172 | the loop method computes exactly the dispatch specification |
| `Alerts.OnlyFirstTwenty` | screener.py:151 | rows after the twentieth never change the outcome |
| `Alerts.SecondCallSendsNothing` | screener.py:141-172 | after a call whose sends all succeeded, a second call on the same day with the same rows and session sends nothing, returns 0 and writes the same ledger |
| `Alerts.ScanRowsFormattable` | screener.py:100-115 | under a positive volume minimum every scan row has price, percent change and volume, so formatting cannot raise |
| `Alerts.LedgerKeysOfCall` | screener.py:152 | every key a call adds starts with its session and a colon and ends with a colon and the day |
| `Api.WithLimit` | main.py:103 | overriding one named limit sets it and leaves every other limit, `rel_vol_min` included, unchanged |
| `Api.MergeOverrides` | main.py:99-104 | starting from a copy of the defaults, every one of the seven listed limits ends as its parsed query value when there is one and its default otherwise; `rel_vol_min` keeps its default |
| `Api.MergedAgrees` | main.py:99-104 | limits that agree name by name with the override rule are the merged record |
| `Api.MergeIgnoresOtherParameters` | main.py:100 | queries that agree on the seven listed parameters give the same limits, whatever other parameters they hold |
| `Api.UnparsedKeepsDefault` | main.py:101-104 | an absent parameter, or one `float()` rejects, leaves the default |
| `Api.ApiScreener` | main.py:96-106 | the endpoint's result is the scan with the session parameter defaulting to "AUTO" and the merged limits |
| `Api.ApiSessionDefault` | main.py:98 | without a session parameter every row carries the session the clock resolves to, one of PRE, REG, POST |
| `Api.AlertsCycle` | main.py:116-120 | one alerts cycle dispatches the default-limit "AUTO" scan under session "AUTO", never raises, and every key it adds begins with "AUTO:" |

## Left out

- The market-data call, `fast_info` access and its `or` fallbacks between field names (`last_price` or `last`, `last_volume` or `volume`) are left out. They are I/O. The provider is a function returning the fields after `_safe_float`, and `None` stands for any exception it raises.
- Message text, the Telegram HTTP request and its parameters are left out. They are I/O. A send is an outcome given per row, and success means the request did not raise.
- Reading and writing the ledger file, `os.getenv` and `os.path.exists` are left out. They are I/O. The loaded set and the environment are parameters, and the set a call writes is part of its result. A failure of the final write is swallowed in the source and is not modelled.
- `datetime.now` is left out, both the US/Eastern reading that decides the session and the server-local reading that gives the ledger date. They are clocks. The time of day and the date string are separate parameters.
- `time.sleep` pacing in the scan and between sends is left out. It has no effect on results.
- `load_universe` is left out. It reads a CSV file. The universe is any sequence of tickers.
- The Flask routes, the HTML dashboard, `/health`, the `ENABLE_ALERTS` flag, the endless `while True` of `_alerts_loop` with its `except` and sleep, and `_start_background` are left out. They are web plumbing and threads. One cycle of the loop is modelled as `Api.AlertsCycle`.
- Concurrent alert cycles sharing the ledger file are left out. The model has no concurrency.
- Floating point is left out: rounding error, NaN and infinities. All quantities are exact reals. `round()` is modelled as exact round-half-to-even and `int()` as exact truncation.
- Mutation of the `DEFAULTS` dictionary is not modelled, because limits are values here. That `api_screener` works on a copy holds by construction.
- `Alerts.DispatchSpec` states the ledger exactly only when no formatting error was raised. After a raise it states only which sends were made, because the ledger is then not written.
