/** The batch fetcher: a list of ticker symbols, cleaned, cut into batches, each
    batch downloaded with a bounded number of retries, every symbol classified into
    a price record plus a SUCCESS log line or a FAILED log line with its reason. */
module TickerBatch {
  import opened Wrappers
  import opened Text
  import opened Prices
  import AlphaVantage

  /** 2025-06-11, as a day number. */
  const TradeDate: Date := 20250
  const BatchSize: nat := 200
  const MaxRetries: nat := 3
  const MinSleep: real := 2.0
  const MaxSleep: real := 5.0

  const BatchErrorPrefix: string := "batch-error: "
  const NotDownloadedMessage: string := "symbol not in downloaded data"
  const NoTradeDateMessage: string := "trade_date not in data"
  const MissingValueMessage: string := "missing price or volume"

  const OpenColumn: string := "Open"
  const HighColumn: string := "High"
  const LowColumn: string := "Low"
  const CloseColumn: string := "Close"
  const AdjCloseColumn: string := "Adj Close"
  const VolumeColumn: string := "Volume"
  const DividendsColumn: string := "Dividends"
  const SplitsColumn: string := "Stock Splits"

  /** One symbol's row of the downloaded frame, a float per column. */
  type Row = map<string, Float>

  /** The frame `yf.download(..., group_by="ticker")` returns: per symbol, a row per date. */
  type Data = map<Symbol, map<Date, Row>>

  /** One download attempt: the frame, or the text of the exception it raised. */
  datatype Download = Raised(reason: string) | Downloaded(data: Data)

  /** A value of `random.random()`. */
  type Unit = r: real | 0.0 <= r < 1.0

  /** The collaborators: the download of batch `b` at attempt `a` (1-based), and the
      random draw behind batch `b`'s polite pause. */
  datatype Env = Env(download: (nat, nat) -> Download, draw: nat -> Unit)

  datatype Status = Success | Failed

  /** A line `log_result` writes: symbol, status, message (empty on success). */
  datatype LogLine = LogLine(symbol: Symbol, status: Status, message: string)

  predicate Distinct<T(==)>(s: seq<T>)
  {
    forall i, j :: 0 <= i < j < |s| ==> s[i] != s[j]
  }

  function Concat<T>(ss: seq<seq<T>>): seq<T>
  {
    if ss == [] then [] else ss[0] + Concat(ss[1..])
  }

  lemma {:induction false} ConcatAppend<T>(ss: seq<seq<T>>, more: seq<seq<T>>)
    ensures Concat(ss + more) == Concat(ss) + Concat(more)
    decreases |ss|
  {
    if ss == [] {
      assert ss + more == more;
    } else {
      assert (ss + more)[1..] == ss[1..] + more;
      ConcatAppend(ss[1..], more);
    }
  }

  // ---------------------------------------------------------------------------
  // The ticker list
  // ---------------------------------------------------------------------------

  /** `column.str.upper().dropna()`: the present entries, upper-cased, in order. */
  function Present(column: seq<Option<string>>): (r: seq<string>)
    ensures forall s :: s in r <==> exists k :: 0 <= k < |column| && column[k].Some? && s == Upper(column[k].value)
  {
    if column == [] then []
    else
      var rest := Present(column[1..]);
      assert forall k :: 1 <= k < |column| ==> column[k] == column[1..][k - 1];
      if column[0].Some? then [Upper(column[0].value)] + rest else rest
  }

  /** The position of the first occurrence of `x`. */
  function FirstIndex<T(==)>(xs: seq<T>, x: T): (k: nat)
    requires x in xs
    ensures k < |xs| && xs[k] == x && forall m :: 0 <= m < k ==> xs[m] != x
  {
    if xs[0] == x then 0 else 1 + FirstIndex(xs[1..], x)
  }

  /** `.unique()`: each value once, kept where it first occurs. */
  function Dedup<T(==,!new)>(xs: seq<T>): (r: seq<T>)
    ensures Distinct(r)
    ensures forall x :: x in r <==> x in xs
  {
    if xs == [] then []
    else
      var d := Dedup(xs[..|xs| - 1]);
      var x := xs[|xs| - 1];
      assert forall y :: y in xs <==> y in xs[..|xs| - 1] || y == x;
      if x in d then d else d + [x]
  }

  /** The first occurrence of a value that occurs before the end stays where it is. */
  lemma FirstIndexSnoc<T>(xs: seq<T>, x: T, y: T)
    requires y in xs
    ensures y in xs + [x] && FirstIndex(xs + [x], y) == FirstIndex(xs, y)
  {
    var k0 := FirstIndex(xs, y);
    var k1 := FirstIndex(xs + [x], y);
    assert (xs + [x])[k0] == y;
  }

  /** The cleaned list keeps the symbols in the order of their first occurrence. */
  lemma {:induction false} DedupOrder<T(!new)>(xs: seq<T>)
    ensures forall i, j :: 0 <= i < j < |Dedup(xs)| ==> FirstIndex(xs, Dedup(xs)[i]) < FirstIndex(xs, Dedup(xs)[j])
    decreases |xs|
  {
    if xs != [] {
      var front, x := xs[..|xs| - 1], xs[|xs| - 1];
      assert xs == front + [x];
      DedupOrder(front);
      var d := Dedup(front);
      forall i | 0 <= i < |d| ensures FirstIndex(xs, d[i]) == FirstIndex(front, d[i]) {
        FirstIndexSnoc(front, x, d[i]);
      }
      if x !in d {
        assert FirstIndex(xs, x) == |xs| - 1 by {
          assert x !in front;
        }
        var r := d + [x];
        forall i, j | 0 <= i < j < |r| ensures FirstIndex(xs, r[i]) < FirstIndex(xs, r[j]) {
          if j == |d| {
            assert r[i] == d[i] && r[j] == x;
            assert FirstIndex(xs, d[i]) == FirstIndex(front, d[i]) < |front|;
          } else {
            assert r[i] == d[i] && r[j] == d[j];
            assert FirstIndex(front, d[i]) < FirstIndex(front, d[j]);
          }
        }
      }
    }
  }

  /** `symbols`: the cleaned ticker list. */
  function Symbols(column: seq<Option<string>>): seq<Symbol>
  {
    Dedup(Present(column))
  }

  /** The symbol list is upper-cased, free of missing entries and duplicates, and
      holds every present entry of the column. */
  lemma SymbolsCleaned(column: seq<Option<string>>)
    ensures Distinct(Symbols(column))
    ensures forall s :: s in Symbols(column) <==>
      exists k :: 0 <= k < |column| && column[k].Some? && s == Upper(column[k].value)
    ensures forall s :: s in Symbols(column) ==> Upper(s) == s
  {
    forall s | s in Symbols(column) ensures Upper(s) == s {
      var k :| 0 <= k < |column| && column[k].Some? && s == Upper(column[k].value);
      UpperIdempotent(column[k].value);
    }
  }

  /** Two spellings of one symbol become one ticker. */
  lemma CaseVariantsMerge(a: string, b: string)
    requires Upper(a) == Upper(b)
    ensures Symbols([Some(a), Some(b)]) == [Upper(a)]
  {
    var p := Present([Some(a), Some(b)]);
    assert [Some(a), Some(b)][1..] == [Some(b)] && [Some(b)][1..] == [];
    assert Present([Some(b)]) == [Upper(b)] + Present([]);
    assert p == [Upper(a), Upper(b)];
    assert p[..1] == [Upper(a)];
    assert Dedup(p[..1]) == [Upper(a)] by {
      assert Dedup(p[..1][..0]) == [];
    }
  }

  // ---------------------------------------------------------------------------
  // Batches
  // ---------------------------------------------------------------------------

  /** `chunk(lst, size)`: consecutive slices of `size`, the last one possibly shorter. */
  function Chunk<T>(lst: seq<T>, size: nat): (cs: seq<seq<T>>)
    requires size > 0
    ensures Concat(cs) == lst
    ensures forall k :: 0 <= k < |cs| ==> 0 < |cs[k]| <= size
    ensures forall k :: 0 <= k < |cs| - 1 ==> |cs[k]| == size
    decreases |lst|
  {
    if lst == [] then []
    else if |lst| <= size then
      assert Concat([lst]) == lst + Concat([lst][1..]);
      [lst]
    else
      var rest := Chunk(lst[size..], size);
      assert Concat([lst[..size]] + rest) == lst[..size] + Concat(([lst[..size]] + rest)[1..]);
      assert ([lst[..size]] + rest)[1..] == rest;
      assert lst[..size] + lst[size..] == lst;
      [lst[..size]] + rest
  }

  // ---------------------------------------------------------------------------
  // The retry loop
  // ---------------------------------------------------------------------------

  /** How the retry loop ends: with a frame, or with the last attempt's exception. */
  datatype Fetch = Fetched(data: Data) | Exhausted(reason: string)

  /** The retry loop's result and the number of attempts it made. */
  datatype Retried = Retried(fetch: Fetch, attempts: nat)

  /** The retry loop from attempt `k` on. */
  function RetryFrom(env: Env, b: nat, k: nat): (r: Retried)
    requires 1 <= k <= MaxRetries
    ensures k <= r.attempts <= MaxRetries
    ensures forall a :: k <= a < r.attempts ==> env.download(b, a).Raised?
    ensures r.fetch.Fetched? ==> env.download(b, r.attempts) == Downloaded(r.fetch.data)
    ensures r.fetch.Exhausted? ==> r.attempts == MaxRetries && env.download(b, MaxRetries) == Raised(r.fetch.reason)
    decreases MaxRetries - k
  {
    match env.download(b, k)
    case Downloaded(d) => Retried(Fetched(d), k)
    case Raised(e) => if k == MaxRetries then Retried(Exhausted(e), k) else RetryFrom(env, b, k + 1)
  }

  function Retry(env: Env, b: nat): Retried
  {
    RetryFrom(env, b, 1)
  }

  /** The backoff sleeps before attempt `n`: `2 * k` seconds after each failed attempt `k`. */
  function Backoff(n: nat): (s: seq<real>)
    ensures |s| == if n == 0 then 0 else n - 1
    ensures forall k :: 0 <= k < |s| ==> s[k] == 2.0 * (k + 1) as real
  {
    if n <= 1 then [] else Backoff(n - 1) + [2.0 * (n - 1) as real]
  }

  function Repeat<T>(x: T, n: nat): (s: seq<T>)
    ensures |s| == n && forall k :: 0 <= k < n ==> s[k] == x
  {
    if n == 0 then [] else Repeat(x, n - 1) + [x]
  }

  /** The `while attempt <= MAX_RETRIES` loop of batch `b`. */
  method DownloadWithRetry(env: Env, b: nat, batch: seq<Symbol>)
    returns (fetch: Fetch, attempts: nat, sleeps: seq<real>, requests: seq<seq<Symbol>>)
    ensures Retried(fetch, attempts) == Retry(env, b)
    ensures sleeps == Backoff(attempts) && requests == Repeat(batch, attempts)
  {
    var attempt: nat := 1;
    fetch := Exhausted("");
    sleeps, requests := [], [];
    while attempt <= MaxRetries
      invariant 1 <= attempt <= MaxRetries + 1
      invariant attempt <= MaxRetries ==> Retry(env, b) == RetryFrom(env, b, attempt)
      invariant attempt <= MaxRetries ==> sleeps == Backoff(attempt) && requests == Repeat(batch, attempt - 1)
      invariant attempt > MaxRetries ==> Retry(env, b) == Retried(fetch, MaxRetries)
      invariant attempt > MaxRetries ==> sleeps == Backoff(MaxRetries) && requests == Repeat(batch, MaxRetries)
      decreases MaxRetries + 1 - attempt
    {
      requests := requests + [batch];
      var d := env.download(b, attempt);
      if d.Downloaded? {
        return Fetched(d.data), attempt, sleeps, requests;
      }
      if attempt == MaxRetries {
        fetch := Exhausted(d.reason);
      } else {
        sleeps := sleeps + [2.0 * attempt as real];
      }
      attempt := attempt + 1;
    }
    attempts := MaxRetries;
  }

  /** Each batch is downloaded between one and three times; it is given up only after
      three failures, with the last one's exception; the loop never sleeps after the
      last attempt, and sleeps `2 * k` after each earlier failure `k`. */
  lemma RetryBounds(env: Env, b: nat)
    ensures 1 <= Retry(env, b).attempts <= MaxRetries
    ensures forall a :: 1 <= a < Retry(env, b).attempts ==> env.download(b, a).Raised?
    ensures Retry(env, b).fetch.Exhausted? <==> forall a :: 1 <= a <= MaxRetries ==> env.download(b, a).Raised?
    ensures Retry(env, b).fetch.Exhausted? ==> Backoff(Retry(env, b).attempts) == [2.0, 4.0]
  {
    var r := Retry(env, b);
    if r.fetch.Fetched? {
      assert env.download(b, r.attempts).Downloaded?;
    } else {
      assert Backoff(3) == Backoff(2) + [4.0];
      assert Backoff(2) == Backoff(1) + [2.0];
    }
  }

  // ---------------------------------------------------------------------------
  // Per-symbol classification
  // ---------------------------------------------------------------------------

  /** `round(row.get(key, default) or default, 4)`: the default when the column is
      absent or its value is zero; NaN is truthy and stays NaN. */
  function Defaulted(row: Row, key: string, default: Quote): Quote
  {
    if key !in row || !Truthy(row[key]) then default else Round(row[key])
  }

  /** The record of `sym`, or the text of the exception that makes it FAILED, in the
      order the checks run. */
  function Classify(data: Data, sym: Symbol): Result<Record>
  {
    if sym !in data then Err(NotDownloadedMessage)
    else if TradeDate !in data[sym] then Err(NoTradeDateMessage)
    else
      var row := data[sym][TradeDate];
      if CloseColumn !in row then Err(AlphaVantage.KeyErrorText(CloseColumn))
      else if row[CloseColumn].NaN? then Err(MissingValueMessage)
      else if VolumeColumn !in row then Err(AlphaVantage.KeyErrorText(VolumeColumn))
      else if row[VolumeColumn].NaN? then Err(MissingValueMessage)
      else if OpenColumn !in row then Err(AlphaVantage.KeyErrorText(OpenColumn))
      else if HighColumn !in row then Err(AlphaVantage.KeyErrorText(HighColumn))
      else if LowColumn !in row then Err(AlphaVantage.KeyErrorText(LowColumn))
      else if AdjCloseColumn !in row then Err(AlphaVantage.KeyErrorText(AdjCloseColumn))
      else
        Ok(Record(sym, TradeDate, Round(row[OpenColumn]), Round(row[HighColumn]), Round(row[LowColumn]),
                  Round(row[CloseColumn]), Round(row[AdjCloseColumn]), IntOf(row[VolumeColumn]).value,
                  Defaulted(row, DividendsColumn, NoDividend), Defaulted(row, SplitsColumn, NoSplit)))
  }

  /** The log line of `sym` given its classification. */
  function LineOf(sym: Symbol, r: Result<Record>): LogLine
  {
    match r
    case Ok(_) => LogLine(sym, Success, "")
    case Err(e) => LogLine(sym, Failed, e)
  }

  /** The log lines of a downloaded batch, one per symbol. */
  function BatchLog(data: Data, batch: seq<Symbol>): seq<LogLine>
  {
    seq(|batch|, k requires 0 <= k < |batch| => LineOf(batch[k], Classify(data, batch[k])))
  }

  /** The records of a downloaded batch: those of its SUCCESS symbols, in order. */
  function BatchRecords(data: Data, batch: seq<Symbol>): seq<Record>
  {
    if batch == [] then []
    else
      var r := Classify(data, batch[|batch| - 1]);
      BatchRecords(data, batch[..|batch| - 1]) + (if r.Ok? then [r.value] else [])
  }

  /** The log lines of a batch whose retries ran out: every symbol FAILED, one message. */
  function FailedLines(batch: seq<Symbol>, message: string): (lines: seq<LogLine>)
    ensures |lines| == |batch|
    ensures forall k :: 0 <= k < |batch| ==> lines[k] == LogLine(batch[k], Failed, message)
  {
    seq(|batch|, k requires 0 <= k < |batch| => LogLine(batch[k], Failed, message))
  }

  /** The checks, in order, with their messages, and the record a symbol that passes them gets. */
  lemma ClassifyOutcomes(data: Data, sym: Symbol)
    ensures sym !in data ==> Classify(data, sym) == Err("symbol not in downloaded data")
    ensures sym in data && TradeDate !in data[sym] ==> Classify(data, sym) == Err("trade_date not in data")
    ensures sym in data && TradeDate in data[sym] ==>
      var row := data[sym][TradeDate];
      && (CloseColumn in row && row[CloseColumn].NaN? ==> Classify(data, sym) == Err("missing price or volume"))
      && (CloseColumn in row && VolumeColumn in row && row[VolumeColumn].NaN? ==>
            Classify(data, sym) == Err("missing price or volume"))
      && (CloseColumn !in row ==> Classify(data, sym) == Err("'Close'"))
    ensures sym in data && TradeDate in data[sym] ==>
      var row := data[sym][TradeDate];
      var priced := CloseColumn in row && row[CloseColumn].Finite?;
      var counted := priced && VolumeColumn in row && row[VolumeColumn].Finite?;
      && (priced && VolumeColumn !in row ==> Classify(data, sym) == Err("'Volume'"))
      && (counted && OpenColumn !in row ==> Classify(data, sym) == Err("'Open'"))
      && (counted && OpenColumn in row && HighColumn !in row ==> Classify(data, sym) == Err("'High'"))
      && (counted && OpenColumn in row && HighColumn in row && LowColumn !in row ==>
            Classify(data, sym) == Err("'Low'"))
      && (counted && OpenColumn in row && HighColumn in row && LowColumn in row && AdjCloseColumn !in row ==>
            Classify(data, sym) == Err("'Adj Close'"))
    ensures Classify(data, sym).Ok? ==>
      var rec := Classify(data, sym).value;
      var row := data[sym][TradeDate];
      && sym in data && TradeDate in data[sym]
      && rec.symbol == sym && rec.tradeDate == TradeDate
      && rec.open == Round(row[OpenColumn]) && rec.high == Round(row[HighColumn])
      && rec.low == Round(row[LowColumn])
      && rec.close.Fixed? && rec.close == Round(row[CloseColumn])
      && rec.adjustedClose == Round(row[AdjCloseColumn])
      && row[VolumeColumn].Finite? && rec.volume == IntOf(row[VolumeColumn]).value
      && (DividendsColumn !in row ==> rec.dividendAmount == NoDividend)
      && (DividendsColumn in row && row[DividendsColumn] == Finite(0.0) ==> rec.dividendAmount == NoDividend)
      && (DividendsColumn in row && row[DividendsColumn].NaN? ==> rec.dividendAmount == NotANumber)
      && (DividendsColumn in row && Truthy(row[DividendsColumn]) ==>
            rec.dividendAmount == Round(row[DividendsColumn]))
      && (SplitsColumn !in row ==> rec.splitCoefficient == NoSplit)
      && (SplitsColumn in row && row[SplitsColumn] == Finite(0.0) ==> rec.splitCoefficient == NoSplit)
      && (SplitsColumn in row && row[SplitsColumn].NaN? ==> rec.splitCoefficient == NotANumber)
      && (SplitsColumn in row && Truthy(row[SplitsColumn]) ==>
            rec.splitCoefficient == Round(row[SplitsColumn]))
  {
    assert AlphaVantage.KeyErrorText(CloseColumn) == "'Close'";
    assert AlphaVantage.KeyErrorText(VolumeColumn) == "'Volume'";
    assert AlphaVantage.KeyErrorText(OpenColumn) == "'Open'";
    assert AlphaVantage.KeyErrorText(HighColumn) == "'High'";
    assert AlphaVantage.KeyErrorText(LowColumn) == "'Low'";
    assert AlphaVantage.KeyErrorText(AdjCloseColumn) == "'Adj Close'";
  }

  /** A downloaded batch logs each of its symbols exactly once, in batch order, and
      SUCCESS exactly when the symbol yields a record. */
  lemma BatchLogOnce(data: Data, batch: seq<Symbol>)
    ensures |BatchLog(data, batch)| == |batch|
    ensures forall k :: 0 <= k < |batch| ==> BatchLog(data, batch)[k].symbol == batch[k]
    ensures forall k :: 0 <= k < |batch| ==>
      (BatchLog(data, batch)[k].status == Success <==> Classify(data, batch[k]).Ok?)
    ensures forall k :: 0 <= k < |batch| && Classify(data, batch[k]).Err? ==>
      BatchLog(data, batch)[k].message == Classify(data, batch[k]).error
  {
  }

  /** A record is appended only for a SUCCESS symbol of the batch, and every SUCCESS
      symbol has its record. */
  lemma {:induction false} BatchRecordsAreSuccesses(data: Data, batch: seq<Symbol>)
    ensures forall r :: r in BatchRecords(data, batch) <==>
      exists k :: 0 <= k < |batch| && Classify(data, batch[k]) == Ok(r)
    decreases |batch|
  {
    if batch != [] {
      var front := batch[..|batch| - 1];
      BatchRecordsAreSuccesses(data, front);
      assert forall k :: 0 <= k < |front| ==> front[k] == batch[k];
    }
  }

  /** The number of SUCCESS lines in a log. */
  function Successes(lines: seq<LogLine>): set<nat>
  {
    set k | 0 <= k < |lines| && lines[k].status == Success
  }

  lemma SuccessesSnoc(lines: seq<LogLine>)
    requires lines != []
    ensures |Successes(lines)| ==
      |Successes(lines[..|lines| - 1])| + (if lines[|lines| - 1].status == Success then 1 else 0)
  {
    var n := |lines| - 1;
    var front := Successes(lines[..n]);
    if lines[n].status == Success {
      assert Successes(lines) == front + {n};
    } else {
      assert Successes(lines) == front;
    }
  }

  /** Records, in order, come one per SUCCESS line of the batch's log. */
  lemma {:induction false} BatchRecordCount(data: Data, batch: seq<Symbol>)
    ensures |BatchRecords(data, batch)| == |Successes(BatchLog(data, batch))|
    decreases |batch|
  {
    if batch != [] {
      var n := |batch| - 1;
      var front := batch[..n];
      BatchRecordCount(data, front);
      var lines := BatchLog(data, batch);
      assert lines[..n] == BatchLog(data, front);
      SuccessesSnoc(lines);
    }
  }

  /** The `for sym in batch` loop of a downloaded batch. */
  method ProcessBatch(data: Data, batch: seq<Symbol>) returns (lines: seq<LogLine>, records: seq<Record>)
    ensures lines == BatchLog(data, batch)
    ensures records == BatchRecords(data, batch)
  {
    lines, records := [], [];
    for i := 0 to |batch|
      invariant lines == BatchLog(data, batch[..i])
      invariant records == BatchRecords(data, batch[..i])
    {
      var sym := batch[i];
      var r := Classify(data, sym);
      match r {
        case Ok(rec) =>
          records := records + [rec];
          lines := lines + [LogLine(sym, Success, "")];
        case Err(e) =>
          lines := lines + [LogLine(sym, Failed, e)];
      }
      assert batch[..i + 1][..i] == batch[..i];
    }
    assert batch[..|batch|] == batch;
  }

  /** The `for sym in batch` loop after the retries ran out. */
  method FailBatch(batch: seq<Symbol>, message: string) returns (lines: seq<LogLine>)
    ensures lines == FailedLines(batch, message)
  {
    lines := [];
    for i := 0 to |batch|
      invariant lines == FailedLines(batch[..i], message)
    {
      lines := lines + [LogLine(batch[i], Failed, message)];
    }
    assert batch[..|batch|] == batch;
  }

  // ---------------------------------------------------------------------------
  // The main loop
  // ---------------------------------------------------------------------------

  /** `random.uniform(MIN_SLEEP, MAX_SLEEP)` for batch `b`. */
  function PoliteSleep(env: Env, b: nat): (s: real)
    ensures MinSleep <= s < MaxSleep
  {
    MinSleep + (MaxSleep - MinSleep) * env.draw(b)
  }

  /** Everything batch `b` produces: its log lines, its records, its sleeps (the
      backoff, then the polite pause only after a downloaded batch) and its downloads. */
  datatype Effects = Effects(lines: seq<LogLine>, records: seq<Record>, sleeps: seq<real>, requests: seq<seq<Symbol>>)

  function BatchEffects(env: Env, batches: seq<seq<Symbol>>, b: nat): Effects
    requires b < |batches|
  {
    var r := Retry(env, b);
    var tries := Repeat(batches[b], r.attempts);
    match r.fetch
    case Exhausted(e) => Effects(FailedLines(batches[b], BatchErrorPrefix + e), [], Backoff(r.attempts), tries)
    case Fetched(data) =>
      Effects(BatchLog(data, batches[b]), BatchRecords(data, batches[b]), Backoff(r.attempts) + [PoliteSleep(env, b)], tries)
  }

  /** The effects of the batches before `n`, concatenated. */
  function EffectsUpTo(env: Env, batches: seq<seq<Symbol>>, n: nat): Effects
    requires n <= |batches|
  {
    if n == 0 then Effects([], [], [], [])
    else
      var e := EffectsUpTo(env, batches, n - 1);
      var f := BatchEffects(env, batches, n - 1);
      Effects(e.lines + f.lines, e.records + f.records, e.sleeps + f.sleeps, e.requests + f.requests)
  }

  /** One turn of `for batch in chunk(symbols, BATCH_SIZE)`. */
  method BatchStep(env: Env, batches: seq<seq<Symbol>>, b: nat) returns (f: Effects)
    requires b < |batches|
    ensures f == BatchEffects(env, batches, b)
  {
    var batch := batches[b];
    var fetch, attempts, sleeps, requests := DownloadWithRetry(env, b, batch);
    match fetch {
      case Exhausted(e) =>
        var lines := FailBatch(batch, BatchErrorPrefix + e);
        f := Effects(lines, [], sleeps, requests);
      case Fetched(data) =>
        var lines, records := ProcessBatch(data, batch);
        f := Effects(lines, records, sleeps + [PoliteSleep(env, b)], requests);
    }
  }

  /** The whole script on the ticker column: the cleaned symbols, the batches, and the
      log, records, sleeps and downloads the batches produce. */
  method Run(env: Env, column: seq<Option<string>>)
    returns (symbols: seq<Symbol>, batches: seq<seq<Symbol>>, out: Effects)
    ensures symbols == Symbols(column) && batches == Chunk(symbols, BatchSize)
    ensures out == EffectsUpTo(env, batches, |batches|)
  {
    symbols := Dedup(Present(column));
    batches := Chunk(symbols, BatchSize);
    if symbols == [] {
      // "No symbols found": the script exits before the loop
      return symbols, batches, Effects([], [], [], []);
    }
    out := Effects([], [], [], []);
    for b := 0 to |batches|
      invariant out == EffectsUpTo(env, batches, b)
    {
      var f := BatchStep(env, batches, b);
      out := Effects(out.lines + f.lines, out.records + f.records, out.sleeps + f.sleeps, out.requests + f.requests);
    }
  }

  function LogSymbols(lines: seq<LogLine>): (s: seq<Symbol>)
    ensures |s| == |lines| && forall k :: 0 <= k < |lines| ==> s[k] == lines[k].symbol
  {
    seq(|lines|, k requires 0 <= k < |lines| => lines[k].symbol)
  }

  /** Each batch, downloaded or not, logs exactly its own symbols, in order. */
  lemma BatchLogsItsSymbols(env: Env, batches: seq<seq<Symbol>>, b: nat)
    requires b < |batches|
    ensures LogSymbols(BatchEffects(env, batches, b).lines) == batches[b]
  {
    match Retry(env, b).fetch {
      case Exhausted(e) =>
      case Fetched(data) => BatchLogOnce(data, batches[b]);
    }
  }

  lemma {:induction false} LogSymbolsUpTo(env: Env, batches: seq<seq<Symbol>>, n: nat)
    requires n <= |batches|
    ensures LogSymbols(EffectsUpTo(env, batches, n).lines) == Concat(batches[..n])
    decreases n
  {
    if n > 0 {
      LogSymbolsUpTo(env, batches, n - 1);
      BatchLogsItsSymbols(env, batches, n - 1);
      var e := EffectsUpTo(env, batches, n - 1).lines;
      var f := BatchEffects(env, batches, n - 1).lines;
      assert EffectsUpTo(env, batches, n).lines == e + f;
      LogSymbolsAppend(e, f);
      ConcatPrefixSnoc(batches, n);
    }
  }

  /** One more slice of a prefix adds its elements at the end. */
  lemma ConcatPrefixSnoc<T>(ss: seq<seq<T>>, n: nat)
    requires 0 < n <= |ss|
    ensures Concat(ss[..n]) == Concat(ss[..n - 1]) + ss[n - 1]
  {
    assert ss[..n] == ss[..n - 1] + [ss[n - 1]];
    ConcatAppend(ss[..n - 1], [ss[n - 1]]);
    assert Concat([ss[n - 1]]) == ss[n - 1] + Concat([ss[n - 1]][1..]);
  }

  lemma LogSymbolsAppend(e: seq<LogLine>, f: seq<LogLine>)
    ensures LogSymbols(e + f) == LogSymbols(e) + LogSymbols(f)
  {
  }

  /** Every cleaned symbol is logged exactly once over the whole run, in list order:
      the log's symbols are the symbol list, which has no duplicates. */
  lemma LoggedExactlyOnce(env: Env, column: seq<Option<string>>)
    ensures var symbols := Symbols(column);
      var batches := Chunk(symbols, BatchSize);
      var lines := EffectsUpTo(env, batches, |batches|).lines;
      LogSymbols(lines) == symbols && Distinct(LogSymbols(lines))
  {
    var symbols := Symbols(column);
    var batches := Chunk(symbols, BatchSize);
    LogSymbolsUpTo(env, batches, |batches|);
    assert batches[..|batches|] == batches;
  }

  /** The sleeps of one batch: the backoff of two and four seconds, then a pause drawn
      from two to five seconds. */
  lemma BatchSleepsBounded(env: Env, batches: seq<seq<Symbol>>, b: nat)
    requires b < |batches|
    ensures forall s :: s in BatchEffects(env, batches, b).sleeps ==> MinSleep <= s <= MaxSleep
  {
    var r := Retry(env, b);
    RetryBounds(env, b);
    forall s | s in Backoff(r.attempts) ensures MinSleep <= s <= MaxSleep {
      var k :| 0 <= k < |Backoff(r.attempts)| && Backoff(r.attempts)[k] == s;
    }
  }

  /** Every sleep of a run lasts between two and five seconds. */
  lemma {:induction false} SleepsBounded(env: Env, batches: seq<seq<Symbol>>, n: nat)
    requires n <= |batches|
    ensures forall s :: s in EffectsUpTo(env, batches, n).sleeps ==> MinSleep <= s <= MaxSleep
    decreases n
  {
    if n > 0 {
      SleepsBounded(env, batches, n - 1);
      BatchSleepsBounded(env, batches, n - 1);
      var e := EffectsUpTo(env, batches, n - 1);
      var f := BatchEffects(env, batches, n - 1);
      assert EffectsUpTo(env, batches, n).sleeps == e.sleeps + f.sleeps;
    }
  }

  /** A batch whose retries ran out logs every symbol FAILED with the last exception,
      adds no record and skips the polite pause. */
  lemma ExhaustedBatch(env: Env, batches: seq<seq<Symbol>>, b: nat)
    requires b < |batches| && forall a :: 1 <= a <= MaxRetries ==> env.download(b, a).Raised?
    ensures var f := BatchEffects(env, batches, b);
      && f.lines == FailedLines(batches[b], "batch-error: " + env.download(b, MaxRetries).reason)
      && f.records == []
      && f.sleeps == [2.0, 4.0]
      && f.requests == [batches[b], batches[b], batches[b]]
  {
    RetryBounds(env, b);
    assert Repeat(batches[b], 3) == [batches[b], batches[b], batches[b]];
  }
}
