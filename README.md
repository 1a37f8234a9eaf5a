# Stock-price ingestion jobs, modelled in Dafny

The repository fills a PostgreSQL price table (`stocks.daily_prices`) from a job table
(`pipelines.stocks_daily_jobs`). Each job `(job_id, symbol, trade_date)` starts out PENDING.
A script loads a batch of jobs, gets a price series for each symbol and settles every job.
A settled job either gets its price row inserted and becomes SUCCESS, or becomes FAILED with
a message that says why. The same loop appears in four scripts:

- **Single day** (`alpha_vantage_daily_stock_price_update.py`). This script loads the PENDING
  jobs of one date and keeps a per-run `series_cache` of Alpha Vantage series. A fixed-window
  request counter throttles it: at most 75 counted requests, then a pause for the rest of the
  60-second window. Each job runs in its own transaction.
- **Several days** (`alpha_vantage_stocks_data_update_for_several_days.py`). This script groups
  the jobs by symbol and makes one request per group. A failed request fails every job of the
  group under one commit.
- **Recovery** (`daily_stock_price_update_for_missing_data_in_alphavantage_using_yfinance.py`).
  This script reselects FAILED jobs whose message is the missing-date text or the read-timeout
  text. It downloads one yfinance window per symbol group, padded by a day on each side.
- **Batch** (`trial_process/take_data_from_ticker_file_save_in_csv_and_log_file.py`). This
  script reads a column of tickers and cuts it into batches of 200. It downloads each batch
  with up to three attempts and backoff, then classifies each symbol into a record or a FAILED
  log line.

## How the model is built

- **Database.** `Database.Connection` is a class with the working job and price tables and the
  last committed snapshots of both. `MarkJob` and `InsertPrice` change the working tables.
  `Commit` copies them to the snapshot, and `Rollback` restores them from it. `Prices.Insert`
  is the `ON CONFLICT (symbol, trade_date) DO NOTHING` insert: a row already present is kept.
- **Collaborators become parameters.** Each script's `Env` holds them:
  - the HTTP outcome or yfinance download of each request;
  - the clock readings;
  - Python's `float()`/`int()` on the provider's strings;
  - the error the database raises for an INSERT, if any;
  - an abort that arrives while a job's transaction is open. An abort is a Ctrl+C, a lost
    connection or an unexpected exception.
- **Jobs as plans.** Each job is first turned into a `Plan`: fail with a message, store a
  record, or crash. `Outcomes.Perform` carries the plan out on the connection. It returns the
  job's outcome or the reason the run stops.
- **Each loop has a reference definition.** The loops are `method`s with `while` loops over
  the connection. Each is proved equal to a function of its inputs:
  - `SingleDay.Committed` and `VerdictAt` for the single-day loop;
  - `GroupRuns.GroupsFrom` for the two grouped loops;
  - `TickerBatch.EffectsUpTo` for the batch loop.

  The properties the scripts promise are proved as lemmas about those functions.
- **Stored state.** The new job table is `ApplyAll(old jobs, entries)`. The new price table
  is `InsertAll(old prices, StoredRecords(entries))`.
- **Dates** are day numbers: 2025-06-23 is 20262 and 2025-06-11 is 20250. Prices are whole
  ticks of 0.0001, and a NaN is kept as `NotANumber`.

The scripts behave as follows, and the model keeps each of these behaviours:

- The several-days query is fixed to `trade_date = '2025-06-23'`
  (alpha_vantage_stocks_data_update_for_several_days.py:42). No date is passed in.
- In the single-day script a Ctrl+C is caught and rolled back, and the script then ends
  normally with status 0 (`SingleDay.ExitCode`).
- In the single-day script the record is built outside the per-job `try`. A malformed entry is
  therefore not marked FAILED: it ends the run with status 1 (`Crash` plans).
- In the several-days and yfinance scripts a Ctrl+C ends the run with status 1.
- Raw symbols that differ only in case form two groups. Both groups request the same upper-cased
  symbol (`SeveralDays.CaseVariantsRequestedTwice`). So "one request per distinct symbol" holds
  for raw symbols, not for upper-cased ones.

## Model

| member | source | states |
|---|---|---|
| Text.Upper | alpha_vantage_daily_stock_price_update.py:121 | `symbol.upper()` keeps the length and maps each character through ASCII upper-casing; no lower-case letter is left |
| Text.UpperIdempotent | trial_process/take_data_from_ticker_file_save_in_csv_and_log_file.py:45 | upper-casing an upper-cased symbol changes nothing |
| Text.NatToString | alpha_vantage_daily_stock_price_update.py:101 | the decimal text of a status code is non-empty and all digits |
| Text.NatToStringRoundTrip | alpha_vantage_daily_stock_price_update.py:101 | reading the decimal text back gives the status code again |
| Prices.Round4 | alpha_vantage_daily_stock_price_update.py:157 | `round(x, 4)` gives the tick count nearest to `x`, off by at most half a tick |
| Prices.Round4Exact | alpha_vantage_daily_stock_price_update.py:157 | a value already at four decimals is unchanged |
| Prices.Round4TieToEven | alpha_vantage_daily_stock_price_update.py:157 | every exact half tick rounds to the even neighbour, as Python's `round` does |
| Prices.Round4HalfToEven | alpha_vantage_daily_stock_price_update.py:157 | two instances of the tie rule: 0.00005 rounds to 0 and 0.00015 to 0.0002 |
| Prices.Round4Examples | alpha_vantage_daily_stock_price_update.py:160 | 150.1234 is stored as 150.1234 and 123.456789 as 123.4568 |
| Prices.Round | daily_stock_price_update_for_missing_data_in_alphavantage_using_yfinance.py:121-125 | rounding turns NaN into NaN and nothing else into NaN; otherwise it is `Round4` |
| Prices.IntOf | daily_stock_price_update_for_missing_data_in_alphavantage_using_yfinance.py:126 | `int()` of a float fails exactly on NaN, with Python's message; otherwise it truncates toward zero |
| Prices.Insert | alpha_vantage_daily_stock_price_update.py:57-66 | the insert adds the record's key; an existing row for that key is left as it was; the table stays keyed by its rows |
| Prices.InsertIdempotent | alpha_vantage_daily_stock_price_update.py:65 | inserting the same record twice is the same as once, and the second insert inserts nothing |
| Prices.InsertAllShape | alpha_vantage_daily_stock_price_update.py:57-66 | a run of inserts adds exactly the records' keys and keeps every row already stored |
| Prices.InsertAllFirstWins | alpha_vantage_daily_stock_price_update.py:65 | for a new key, the first record inserted for it is the one stored |
| Prices.InsertAllIdempotent | alpha_vantage_daily_stock_price_update.py:65 | re-running the same inserts leaves the price table as it is |
| Prices.InsertAllNoOp | alpha_vantage_daily_stock_price_update.py:65 | inserts whose keys are all present change nothing |
| Prices.InsertAllAppend | alpha_vantage_daily_stock_price_update.py:167-170 | inserting two runs in turn is inserting their concatenation |
| Jobs.Select | alpha_vantage_daily_stock_price_update.py:69-80 | the loaded batch holds each job the query matches exactly once, with its symbol and date, sorted by symbol then date |
| Database.Marked | alpha_vantage_daily_stock_price_update.py:89-95 | `mark_job` sets only that job's status and message; every other job is unchanged and no job is added |
| Database.Connection.constructor | alpha_vantage_daily_stock_price_update.py:25-33 | a fresh connection has its tables as committed, with nothing pending |
| Database.Connection.MarkJob | alpha_vantage_daily_stock_price_update.py:89-95 | the working job table becomes `Marked(...)`; prices and the committed snapshot are unchanged |
| Database.Connection.InsertPrice | alpha_vantage_daily_stock_price_update.py:168 | a rejected INSERT raises its error and changes nothing; otherwise the working prices get the insert-if-absent row |
| Database.Connection.Commit | alpha_vantage_daily_stock_price_update.py:170 | the working tables become the committed ones |
| Database.Connection.Rollback | alpha_vantage_daily_stock_price_update.py:173 | the working tables go back to the last commit |
| RateLimit.ThrottleResets | alpha_vantage_daily_stock_price_update.py:126-132 | at the cap inside the window, the pause is `60 - elapsed`, which is positive, and the counter restarts at 0 from the clock after the pause |
| RateLimit.ThrottlePassesThrough | alpha_vantage_daily_stock_price_update.py:126 | otherwise nothing pauses and the counter and window start are unchanged, even at the cap |
| RateLimit.ThrottleAdmits | alpha_vantage_daily_stock_price_update.py:126-132 | every request goes out under the cap or in a window at least 60 s old |
| RateLimit.StaleWindowKeepsGrowing | alpha_vantage_daily_stock_price_update.py:126-136 | once the window is 60 s old it never resets; the counter grows by one per successful request |
| RateLimit.ReplayWithinCap | alpha_vantage_daily_stock_price_update.py:125-136 | with a clock that never goes back, the counter exceeds 75 only in a window at least 60 s old |
| AlphaVantage.FetchSymbolData | alpha_vantage_daily_stock_price_update.py:97-110 | the request yields a series exactly when it is usable (status 200, JSON, no error or note, a series); the series is the body's `Time Series (Daily)` |
| AlphaVantage.FetchErrors | alpha_vantage_daily_stock_price_update.py:99-110 | checks run in order, each with its own message: the transport's error, `HTTP <code>`, the body's parse error, `Error Message`, `Note`, then the missing-series text |
| AlphaVantage.HttpMessageNamesCode | alpha_vantage_daily_stock_price_update.py:101 | two status codes with the same `HTTP <code>` message are equal |
| AlphaVantage.FetchSymbolDataWrapped | alpha_vantage_stocks_data_update_for_several_days.py:81-96 | the several-days fetch succeeds exactly when the plain one does, and prefixes its errors with `<symbol> API error: ` |
| AlphaVantage.BuildRecord | alpha_vantage_daily_stock_price_update.py:153-165 | a record is built exactly when every field converts; it is keyed `(symbol, date)`, its prices are the rounded fields, and dividend and split fall back to 0.0 and 1.0 (also on empty text in the several-days variant) |
| AlphaVantage.BuildRecordFirstFailure | alpha_vantage_daily_stock_price_update.py:153-165 | a record that cannot be built fails with the exception of the first unreadable field in the order open, high, low, close, adjusted close, volume, dividend, split: the `KeyError` text `'<key>'` of an absent key or the conversion error of its text |
| AlphaVantage.MissingFieldNamed | alpha_vantage_stocks_data_update_for_several_days.py:142-147 | a missing required field, every other one present and readable, gives the `KeyError` text `'<field>'` |
| AlphaVantage.EmptyDividend | alpha_vantage_stocks_data_update_for_several_days.py:148 | an empty dividend text gives 0.0 under `or 0.0`, but fails `float()` in the single-day script |
| Outcomes.StatusOf | alpha_vantage_daily_stock_price_update.py:140 | an outcome's status is never PENDING and is SUCCESS exactly for a stored record |
| Outcomes.ErrorOf | alpha_vantage_daily_stock_price_update.py:169 | the error message is empty exactly on SUCCESS, and is the failure's message otherwise |
| Outcomes.ApplyAllKeys | alpha_vantage_daily_stock_price_update.py:119-177 | applying the settled jobs adds no job and leaves every job outside the batch as it was |
| Outcomes.ApplyAllAt | alpha_vantage_daily_stock_price_update.py:119-177 | a job settled once has the status and message of its outcome afterwards |
| Outcomes.EntriesTerminal | alpha_vantage_daily_stock_price_update.py:119-177 | every settled job is SUCCESS or FAILED afterwards |
| Outcomes.AllEntered | alpha_vantage_daily_stock_price_update.py:119-177 | when the settled jobs are the batch in order, each loaded job is settled exactly once and none stays PENDING |
| Outcomes.Ending | alpha_vantage_stocks_data_update_for_several_days.py:163-188 | the run goes on exactly when the job's transaction commits |
| Outcomes.StoredRecordsOf | alpha_vantage_daily_stock_price_update.py:167-171 | the records inserted are exactly those of the SUCCESS jobs |
| Outcomes.FailJob | alpha_vantage_daily_stock_price_update.py:147-151 | marking FAILED and committing changes only that job when no abort comes, and leaves everything as committed when one does |
| Outcomes.StoreJob | alpha_vantage_daily_stock_price_update.py:167-177 | either the row and SUCCESS are both committed, or a rejected INSERT is rolled back and the job committed FAILED with `Insert error: <exc>` with prices unchanged, or an abort leaves both tables as committed |
| Outcomes.ExecuteOutcomes | alpha_vantage_daily_stock_price_update.py:137-177 | a plan crashes exactly when it is a crash, halts exactly on an abort, and otherwise commits its message, its record, or its `Insert error: ` text |
| Outcomes.Perform | alpha_vantage_daily_stock_price_update.py:137-177 | carrying a plan out gives the verdict `Execute` names; a commit marks the job and inserts only a SUCCESS record, and anything else changes no table |
| Outcomes.FailEntries | alpha_vantage_stocks_data_update_for_several_days.py:122-125 | the group-wide failure settles every job of the group FAILED with the one message and stores no record |
| Outcomes.FailGroup | alpha_vantage_stocks_data_update_for_several_days.py:122-125 | the group's jobs are all marked FAILED under a single commit, or none of them is if an abort comes first |
| GroupRuns.ExitCode | alpha_vantage_stocks_data_update_for_several_days.py:163-188 | in both grouped scripts the exit status is 0 exactly when the run completes, and 1 after an interrupt, a lost connection or any other exception |
| GroupRuns.JobsFrom | alpha_vantage_stocks_data_update_for_several_days.py:128-161 | jobs settle in order, each with the verdict of its plan, and the run stops at the first plan that does not commit |
| GroupRuns.GroupRun | alpha_vantage_stocks_data_update_for_several_days.py:119-161 | a failed group settles all its jobs with its message, or nothing on an abort; otherwise its jobs settle one by one |
| GroupRuns.GroupsFrom | alpha_vantage_stocks_data_update_for_several_days.py:103-161 | the settled jobs are a prefix of the groups' rows in group order, and all of them when the run does not stop |
| GroupRuns.GroupsFromOutcomes | alpha_vantage_stocks_data_update_for_several_days.py:103-161 | every settled job belongs to some group and has the outcome that group's plan gives it |
| GroupRuns.RunJobs | alpha_vantage_stocks_data_update_for_several_days.py:128-161 | the per-job loop settles exactly `JobsFrom`, and the tables hold exactly those outcomes |
| GroupRuns.RunGroup | alpha_vantage_stocks_data_update_for_several_days.py:116-161 | one group on the connection settles exactly `GroupRun`, and the tables hold exactly those outcomes |
| GroupRuns.GroupStep | alpha_vantage_stocks_data_update_for_several_days.py:103-161 | one more group extends the settled jobs along `GroupsFrom`, or ends the run with them |
| GroupRuns.CompletedCoversAll | alpha_vantage_stocks_data_update_for_several_days.py:103-161 | a run that does not stop settles every job of every group, in group order |
| Grouping.GroupByRows | alpha_vantage_stocks_data_update_for_several_days.py:58 | every group is non-empty and holds exactly the rows of its symbol, in their loaded order |
| Grouping.GroupByAscending | alpha_vantage_stocks_data_update_for_several_days.py:58 | groups come in strictly ascending symbol order |
| Grouping.GroupSymbolsDistinct | alpha_vantage_stocks_data_update_for_several_days.py:58 | no symbol has two groups, so one request is made per distinct raw symbol |
| Grouping.GroupByFlatten | alpha_vantage_stocks_data_update_for_several_days.py:44-58 | on rows sorted by symbol, the groups taken in order give the rows back as loaded |
| SeveralDays.PlanFor | alpha_vantage_stocks_data_update_for_several_days.py:116-150 | a failed request fails the whole group; a series gives one plan per job |
| SeveralDays.Requests | alpha_vantage_stocks_data_update_for_several_days.py:104-117 | group `g` requests exactly its upper-cased symbol, one request per group |
| SeveralDays.FetchStep | alpha_vantage_stocks_data_update_for_several_days.py:107-118 | the rate check and request of group `g` give its response, the next counter state, and one more request and pause |
| SeveralDays.Process | alpha_vantage_stocks_data_update_for_several_days.py:102-161 | the group loop settles exactly `GroupsFrom` of the groups' plans, with the requests and pauses of the groups reached; the tables hold exactly those outcomes |
| SeveralDays.Run | alpha_vantage_stocks_data_update_for_several_days.py:37-188 | the batch is the PENDING jobs of 2025-06-23, grouped; the run settles them as `GroupsFrom` says; on completion no loaded job stays PENDING |
| SeveralDays.GroupFailureMessage | alpha_vantage_stocks_data_update_for_several_days.py:119-126 | a failed request fails every job of the group with `API error: <SYM> API error: <exc>` |
| SeveralDays.JobOutcomes | alpha_vantage_stocks_data_update_for_several_days.py:128-161 | per job: the missing date, the build error or the INSERT error as FAILED messages, else the record keyed `(SYM, date)` with the 0.0 and 1.0 fallbacks |
| SeveralDays.MissingOpenFails | alpha_vantage_stocks_data_update_for_several_days.py:142 | a missing `1. open` fails the job with exactly `Insert error: '1. open'` |
| SeveralDays.EntryOutcome | alpha_vantage_stocks_data_update_for_several_days.py:103-161 | every settled job belongs to a reached group and has the outcome that group's response gives it |
| SeveralDays.CaseVariantsRequestedTwice | alpha_vantage_stocks_data_update_for_several_days.py:103-117 | two raw symbols differing only in case request the same symbol twice |
| SeveralDays.WindowWithinCap | alpha_vantage_stocks_data_update_for_several_days.py:107-118 | with a clock that never goes back, at most 75 counted requests fall in a window younger than 60 s |
| SingleDay.FirstSuccess | alpha_vantage_daily_stock_price_update.py:124-142 | the cached series of a symbol comes from the first earlier job whose request for it succeeded, and there is none exactly when all such requests failed |
| SingleDay.ExitCode | alpha_vantage_daily_stock_price_update.py:179-185 | the exit status is 0 on completion and on Ctrl+C, and 1 otherwise |
| SingleDay.CacheHit | alpha_vantage_daily_stock_price_update.py:124-144 | a cached symbol sends no request and uses the cached series |
| SingleDay.CacheMiss | alpha_vantage_daily_stock_price_update.py:134-142 | an uncached symbol sends a request, and the series is cached only if the request succeeded |
| SingleDay.FetchStep | alpha_vantage_daily_stock_price_update.py:124-144 | the cache lookup, rate check and request give job `i`'s series, and the new cache, counter, requests and pauses are those of job `i + 1` |
| SingleDay.JobStep | alpha_vantage_daily_stock_price_update.py:144-177 | job `i` is settled with its verdict, or the run ends with that job's abort or crash; the tables follow |
| SingleDay.Process | alpha_vantage_daily_stock_price_update.py:119-177 | the job loop settles a prefix of the batch, each job with its verdict, and stops at the first that does not commit; requests, pauses and tables follow |
| SingleDay.Run | alpha_vantage_daily_stock_price_update.py:69-185 | the run loads the date's PENDING jobs and settles them as `Committed` says; an empty batch changes nothing; on completion no loaded job stays PENDING |
| SingleDay.FetchedWhenNotCached | alpha_vantage_daily_stock_price_update.py:124-142 | a job sends a request exactly when every earlier request for its symbol failed |
| SingleDay.SucceededNotRefetched | alpha_vantage_daily_stock_price_update.py:124-144 | after a successful request a symbol is never requested again, and its later jobs use that series |
| SingleDay.RequestsExact | alpha_vantage_daily_stock_price_update.py:124-136 | the recorded requests are exactly the jobs that sent one, in increasing order |
| SingleDay.SecondRequestFollowsFailure | alpha_vantage_daily_stock_price_update.py:137-142 | when a symbol is requested twice, the earlier request failed |
| SingleDay.DecideOutcomes | alpha_vantage_daily_stock_price_update.py:137-177 | per job: `API error: <exc>`, the missing-date text or `Insert error: <exc>` as FAILED; a malformed entry crashes the run; else the record keyed `(SYM, date)` with absent dividend and split at 0.0 and 1.0 |
| SingleDay.PauseIsRestOfWindow | alpha_vantage_daily_stock_price_update.py:126-130 | a pause happens only before a request at the cap inside the window, and lasts the positive rest of the window |
| SingleDay.WindowWithinCap | alpha_vantage_daily_stock_price_update.py:125-136 | with a clock that never goes back, at most 75 counted requests fall in a window younger than 60 s |
| Recovery.MinDate | daily_stock_price_update_for_missing_data_in_alphavantage_using_yfinance.py:73 | `min(dates)` is one of the group's dates and no later than any |
| Recovery.MaxDate | daily_stock_price_update_for_missing_data_in_alphavantage_using_yfinance.py:74 | `max(dates)` is one of the group's dates and no earlier than any |
| Recovery.WindowCovers | daily_stock_price_update_for_missing_data_in_alphavantage_using_yfinance.py:76-84 | every date of the group lies strictly inside `[min - 1 day, max + 1 day)` |
| Recovery.PlanFor | daily_stock_price_update_for_missing_data_in_alphavantage_using_yfinance.py:85-145 | an exception or an empty frame fails the group; otherwise one plan per job |
| Recovery.Requests | daily_stock_price_update_for_missing_data_in_alphavantage_using_yfinance.py:76-84 | group `g` downloads exactly its upper-cased symbol over its padded window |
| Recovery.DownloadStep | daily_stock_price_update_for_missing_data_in_alphavantage_using_yfinance.py:76-101 | the download of group `g` gives that group's plan and one more request |
| Recovery.GroupTurn | daily_stock_price_update_for_missing_data_in_alphavantage_using_yfinance.py:68-145 | one group extends the settled jobs along `GroupsFrom`, or ends the run |
| Recovery.Process | daily_stock_price_update_for_missing_data_in_alphavantage_using_yfinance.py:67-145 | the group loop settles exactly `GroupsFrom` of the downloads' plans; the tables hold exactly those outcomes |
| Recovery.Run | daily_stock_price_update_for_missing_data_in_alphavantage_using_yfinance.py:23-167 | the batch is the FAILED jobs with one of the two messages; on completion each is settled exactly once |
| Recovery.JobOutcomes | daily_stock_price_update_for_missing_data_in_alphavantage_using_yfinance.py:114-145 | per job: a missing date or column gives the missing-date text, a NaN volume gives `Insert error: `, an INSERT error gives its text; else the record keyed `(SYM, date)` with its rounded open, high, low, close and adjusted close, truncated volume, dividend 0.0 and split 1.0 |
| Recovery.GroupFailureMessage | daily_stock_price_update_for_missing_data_in_alphavantage_using_yfinance.py:85-101 | an exception fails the group with `yfinance error: <exc>`, a `df.empty` frame (no rows, or rows with no columns) with `No data returned from yfinance`, and a non-empty frame gets one plan per job |
| Recovery.Reselected | daily_stock_price_update_for_missing_data_in_alphavantage_using_yfinance.py:24-33 | afterwards a job is a candidate again exactly when its new message is one of the two the query selects |
| TickerBatch.Present | trial_process/take_data_from_ticker_file_save_in_csv_and_log_file.py:45 | `.str.upper().dropna()` keeps exactly the upper-cased present entries |
| TickerBatch.Dedup | trial_process/take_data_from_ticker_file_save_in_csv_and_log_file.py:45 | `.unique()` has no duplicates and the same members |
| TickerBatch.DedupOrder | trial_process/take_data_from_ticker_file_save_in_csv_and_log_file.py:45 | `.unique()` keeps the order of first occurrence |
| TickerBatch.SymbolsCleaned | trial_process/take_data_from_ticker_file_save_in_csv_and_log_file.py:45 | the symbol list is upper-case, without missing entries or duplicates, and has each present ticker |
| TickerBatch.CaseVariantsMerge | trial_process/take_data_from_ticker_file_save_in_csv_and_log_file.py:45 | two spellings of one symbol become one ticker |
| TickerBatch.Chunk | trial_process/take_data_from_ticker_file_save_in_csv_and_log_file.py:54-56 | the slices concatenate to the list; none is empty, none is longer than `size`, all but the last are exactly `size` |
| TickerBatch.RetryFrom | trial_process/take_data_from_ticker_file_save_in_csv_and_log_file.py:80-96 | the retry loop stops at the first download that returns, or gives up after attempt 3 with its exception |
| TickerBatch.Backoff | trial_process/take_data_from_ticker_file_save_in_csv_and_log_file.py:93 | after each failed attempt `k` but the last, the loop sleeps `2 * k` seconds |
| TickerBatch.DownloadWithRetry | trial_process/take_data_from_ticker_file_save_in_csv_and_log_file.py:81-96 | the `while attempt <= MAX_RETRIES` loop gives the retry result, its backoff sleeps and one request per attempt |
| TickerBatch.RetryBounds | trial_process/take_data_from_ticker_file_save_in_csv_and_log_file.py:81-94 | 1 to 3 attempts; the batch is given up exactly when all three raise, after sleeps of 2 and 4 s |
| TickerBatch.FailedLines | trial_process/take_data_from_ticker_file_save_in_csv_and_log_file.py:89-91 | one FAILED line per batch symbol, in order, with the one message |
| TickerBatch.ClassifyOutcomes | trial_process/take_data_from_ticker_file_save_in_csv_and_log_file.py:99-124 | checks in order with their messages: missing symbol, missing date, `'Close'`, NaN close, `'Volume'`, NaN volume, then `'Open'`, `'High'`, `'Low'` and `'Adj Close'` for absent columns; a record has the symbol, the date, the rounded open, high, low, close and adjusted close, the truncated volume, and dividend and split rounded when present and non-zero, 0.0 and 1.0 when absent or zero, NaN when NaN |
| TickerBatch.BatchLogOnce | trial_process/take_data_from_ticker_file_save_in_csv_and_log_file.py:99-127 | a downloaded batch logs each symbol once, in order, SUCCESS exactly when it yields a record, else with its error |
| TickerBatch.BatchRecordsAreSuccesses | trial_process/take_data_from_ticker_file_save_in_csv_and_log_file.py:112-125 | the records are exactly those of SUCCESS symbols |
| TickerBatch.BatchRecordCount | trial_process/take_data_from_ticker_file_save_in_csv_and_log_file.py:112-127 | there are as many records as SUCCESS lines |
| TickerBatch.ProcessBatch | trial_process/take_data_from_ticker_file_save_in_csv_and_log_file.py:99-127 | the per-symbol loop builds exactly the batch's log lines and records |
| TickerBatch.FailBatch | trial_process/take_data_from_ticker_file_save_in_csv_and_log_file.py:89-91 | the give-up loop logs exactly `FailedLines` |
| TickerBatch.PoliteSleep | trial_process/take_data_from_ticker_file_save_in_csv_and_log_file.py:130 | the polite pause lies in [2, 5) seconds |
| TickerBatch.BatchStep | trial_process/take_data_from_ticker_file_save_in_csv_and_log_file.py:80-132 | one batch produces exactly its lines, records, sleeps and downloads |
| TickerBatch.Run | trial_process/take_data_from_ticker_file_save_in_csv_and_log_file.py:44-132 | the script cleans the symbols, cuts them into batches of 200 and produces every batch's effects in order |
| TickerBatch.BatchLogsItsSymbols | trial_process/take_data_from_ticker_file_save_in_csv_and_log_file.py:80-127 | each batch, downloaded or given up, logs exactly its own symbols in order |
| TickerBatch.LoggedExactlyOnce | trial_process/take_data_from_ticker_file_save_in_csv_and_log_file.py:45-127 | over the whole run the logged symbols are the symbol list: each exactly once, in order |
| TickerBatch.BatchSleepsBounded | trial_process/take_data_from_ticker_file_save_in_csv_and_log_file.py:93-132 | every sleep of a batch lasts between 2 and 5 seconds |
| TickerBatch.SleepsBounded | trial_process/take_data_from_ticker_file_save_in_csv_and_log_file.py:80-132 | every sleep of the run lasts between 2 and 5 seconds |
| TickerBatch.ExhaustedBatch | trial_process/take_data_from_ticker_file_save_in_csv_and_log_file.py:89-96 | a batch whose three attempts raise logs every symbol with `batch-error: <exc>`, adds no record, sleeps 2 and 4 s and skips the polite pause |

## Left out

- Printing and logging text, except the symbol, status and message of the batch script's
  `log_result` lines.
- The CSV output of the batch script (trial_process/take_data_from_ticker_file_save_in_csv_and_log_file.py:135-142) and its `inserted_at` timestamp. Both are file I/O and the clock.
- The `last_attempted = now()` column. It is a database clock reading, and no outcome depends on it.
- Command-line arguments, `.env` loading and the API key check. The single-day date is a
  parameter of `SingleDay.Run`.
- HTTP, yfinance and pandas. Each request is an abstract outcome in `Env`. The yfinance frame is
  a map from date to columns, and it is assumed to have the renamed columns and one row per
  date. `df.loc[dt]` is a map lookup.
- JSON bodies that are not objects are not modelled.
- Binary floating point. Prices are exact reals, rounded half to even to whole ticks. Binary
  representation, infinities and the exact way Python's `round` treats binary halves are not
  captured. `float()` and `int()` on the provider's strings are parameters.
- Upper-casing covers ASCII letters only.
- The symbol order is code-point order. A database collation that sorts differently is not
  modelled.
- Sleeps and the random pause are outputs, and the clock is a parameter. The random draw is a
  parameter in [0, 1).
- Aborts (Ctrl+C, a lost connection, an unexpected exception) are modelled only while a job's
  transaction is open, at its commit. An abort elsewhere has the same effect on the tables.
  An abort during a group-wide failure is the abort of the group's first job. A
  `mark_job(SUCCESS)` or `commit` that fails inside the insert `try` is caught there and
  counts as a rejected insert (`rejects`), recorded FAILED with `Insert error: <exc>`; a
  failing `mark_job` or `commit` anywhere else is one of these aborts.
- Connection closing and the repeated `if not closed: close()` guards.
- `save_invalid_symbol.py` is not part of this model. It is a single query and a CSV dump.
- Concurrency between runs. Each script runs alone on its connection.
