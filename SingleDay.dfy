/** The single-day Alpha Vantage loop: the PENDING jobs of one trade date, one
    request per symbol not yet in `series_cache`, under the fixed-window rate counter,
    each job committed on its own. */
module SingleDay {
  import opened Wrappers
  import opened Text
  import opened Prices
  import opened Jobs
  import opened Database
  import opened RateLimit
  import opened AlphaVantage
  import opened Outcomes

  /** The collaborators of one run, indexed by the job's position in the batch:
      the response to the request made for that job, the clock, the text
      conversions, the error the job's INSERT raises (if any), and an abort that
      arrives while the job's transaction is open (if any). */
  datatype Env = Env(
    http: (nat, Symbol) -> HttpOutcome,
    clock: ClockRead -> real,
    conv: Conversions,
    rejects: nat -> Option<string>,
    halt: nat -> Option<Abort>)

  /** `job["symbol"].upper()`. */
  function SymbolAt(rows: seq<JobRow>, k: nat): Symbol
    requires k < |rows|
  {
    Upper(rows[k].symbol)
  }

  /** Whether the request made for job `j` returned a usable series for `sym`. */
  predicate SucceededAt(env: Env, rows: seq<JobRow>, sym: Symbol, j: nat)
    requires j < |rows|
  {
    SymbolAt(rows, j) == sym && Usable(env.http(j, sym))
  }

  /** The first of the jobs before `n` whose request for `sym` succeeded: the job
      whose series `series_cache[sym]` holds once job `n` is reached. */
  function FirstSuccess(env: Env, rows: seq<JobRow>, sym: Symbol, n: nat): (r: Option<nat>)
    requires n <= |rows|
    ensures r.Some? ==> r.value < n && SucceededAt(env, rows, sym, r.value)
    ensures r.Some? ==> forall j :: 0 <= j < r.value ==> !SucceededAt(env, rows, sym, j)
    ensures r.None? <==> forall j :: 0 <= j < n ==> !SucceededAt(env, rows, sym, j)
    decreases n
  {
    if n == 0 then None
    else match FirstSuccess(env, rows, sym, n - 1)
      case Some(j) => Some(j)
      case None => if SucceededAt(env, rows, sym, n - 1) then Some(n - 1) else None
  }

  /** Job `k` sends a request: its symbol is not in the cache. */
  predicate Fetched(env: Env, rows: seq<JobRow>, k: nat)
    requires k < |rows|
  {
    FirstSuccess(env, rows, SymbolAt(rows, k), k).None?
  }

  /** The job whose request supplied job `k`'s series. */
  function SourceOf(env: Env, rows: seq<JobRow>, k: nat): nat
    requires k < |rows|
  {
    if Fetched(env, rows, k) then k else FirstSuccess(env, rows, SymbolAt(rows, k), k).value
  }

  /** The series job `k` works with, or the exception its request raised. */
  function SeriesAt(env: Env, rows: seq<JobRow>, k: nat): Result<Series>
    requires k < |rows|
  {
    FetchSymbolData(env.http(SourceOf(env, rows, k), SymbolAt(rows, k)))
  }

  /** The clock readings and the success of job `k`'s request. */
  function AttemptAt(env: Env, rows: seq<JobRow>, k: nat): Attempt
    requires k < |rows|
  {
    Attempt(env.clock(BeforeFetch(k)), env.clock(AfterPause(k)), Usable(env.http(k, SymbolAt(rows, k))))
  }

  /** The requests of the jobs before `n`. */
  function Attempts(env: Env, rows: seq<JobRow>, n: nat): seq<Attempt>
    requires n <= |rows|
    decreases n
  {
    if n == 0 then [] else Attempts(env, rows, n - 1) + (if Fetched(env, rows, n - 1) then [AttemptAt(env, rows, n - 1)] else [])
  }

  /** `req_counter` and `minute_start` when job `k` is reached. */
  function WindowAt(env: Env, rows: seq<JobRow>, k: nat): RateWindow
    requires k <= |rows|
  {
    Replay(RateWindow(0, env.clock(Start)), Attempts(env, rows, k))
  }

  /** The throttle pause before job `k`'s request, if it makes one. */
  function PauseAt(env: Env, rows: seq<JobRow>, k: nat): Option<real>
    requires k < |rows|
  {
    if Fetched(env, rows, k) then Throttle(WindowAt(env, rows, k), env.clock(BeforeFetch(k)), env.clock(AfterPause(k))).1
    else None
  }

  /** The jobs, among those before `n`, that sent a request, in order. */
  function Requests(env: Env, rows: seq<JobRow>, n: nat): seq<nat>
    requires n <= |rows|
    decreases n
  {
    if n == 0 then [] else Requests(env, rows, n - 1) + (if Fetched(env, rows, n - 1) then [n - 1] else [])
  }

  /** The `time.sleep` durations of the jobs before `n`, in order. */
  function Sleeps(env: Env, rows: seq<JobRow>, n: nat): seq<real>
    requires n <= |rows|
    decreases n
  {
    if n == 0 then [] else Sleeps(env, rows, n - 1) + (if PauseAt(env, rows, n - 1).Some? then [PauseAt(env, rows, n - 1).value] else [])
  }

  /** What the loop sets out to do with job `k` of symbol `sym` on `date`, given its
      series: the request's exception and the missing date mark the job FAILED; a
      record that cannot be built is not caught (it is built outside the `try`). */
  function PlanFor(env: Env, date: Date, sym: Symbol, k: nat, fetch: Result<Series>): Plan
  {
    match fetch
    case Err(e) => Fail(ApiErrorPrefix + e)
    case Ok(series) =>
      if date !in series then Fail(NoDataMessage)
      else match BuildRecord(sym, date, series[date], env.conv, WhenAbsent)
        case Err(e) => Crash(e)
        case Ok(r) => Store(r, env.rejects(k))
  }

  function Decide(env: Env, date: Date, sym: Symbol, k: nat, fetch: Result<Series>): Verdict
  {
    Execute(PlanFor(env, date, sym, k, fetch), env.halt(k))
  }

  function VerdictAt(env: Env, date: Date, rows: seq<JobRow>, k: nat): Verdict
    requires k < |rows|
  {
    Decide(env, date, SymbolAt(rows, k), k, SeriesAt(env, rows, k))
  }

  /** The process exit status: a Ctrl+C is caught and the script ends normally;
      an uncaught exception (a malformed entry, a lost connection) ends it with 1. */
  function ExitCode(t: Termination): (code: int)
    ensures code == 0 <==> t == Completed || t == Stopped(Interrupt)
    ensures code == 0 || code == 1
  {
    if t == Completed || t == Stopped(Interrupt) then 0 else 1
  }

  /** `series_cache` once job `n` is reached: the series of each symbol's first
      successful request. */
  ghost predicate CacheHolds(env: Env, rows: seq<JobRow>, n: nat, cache: map<Symbol, Series>)
    requires n <= |rows|
  {
    && (forall s :: s in cache <==> FirstSuccess(env, rows, s, n).Some?)
    && (forall s :: s in cache ==> cache[s] == FetchSymbolData(env.http(FirstSuccess(env, rows, s, n).value, s)).value)
  }

  /** One more job: the first success of each symbol stays, or becomes this job. */
  lemma FirstSuccessNext(env: Env, rows: seq<JobRow>, s: Symbol, i: nat)
    requires i < |rows|
    ensures FirstSuccess(env, rows, s, i + 1) ==
      if FirstSuccess(env, rows, s, i).Some? then FirstSuccess(env, rows, s, i)
      else if SucceededAt(env, rows, s, i) then Some(i) else None
  {
  }

  /** A cache hit: no request, the cached series, and the cache unchanged. */
  lemma CacheHit(env: Env, rows: seq<JobRow>, i: nat, cache: map<Symbol, Series>)
    requires i < |rows| && CacheHolds(env, rows, i, cache) && SymbolAt(rows, i) in cache
    ensures !Fetched(env, rows, i)
    ensures SeriesAt(env, rows, i) == Ok(cache[SymbolAt(rows, i)])
    ensures CacheHolds(env, rows, i + 1, cache)
  {
    forall s ensures FirstSuccess(env, rows, s, i + 1) == FirstSuccess(env, rows, s, i) {
      FirstSuccessNext(env, rows, s, i);
    }
  }

  /** A cache miss: a request, whose series is cached only when it succeeded. */
  lemma CacheMiss(env: Env, rows: seq<JobRow>, i: nat, cache: map<Symbol, Series>)
    requires i < |rows| && CacheHolds(env, rows, i, cache) && SymbolAt(rows, i) !in cache
    ensures Fetched(env, rows, i)
    ensures SeriesAt(env, rows, i) == FetchSymbolData(env.http(i, SymbolAt(rows, i)))
    ensures var fetch := FetchSymbolData(env.http(i, SymbolAt(rows, i)));
      CacheHolds(env, rows, i + 1, if fetch.Ok? then cache[SymbolAt(rows, i) := fetch.value] else cache)
  {
    var sym := SymbolAt(rows, i);
    var fetch := FetchSymbolData(env.http(i, sym));
    var cache' := if fetch.Ok? then cache[sym := fetch.value] else cache;
    forall s ensures s in cache' <==> FirstSuccess(env, rows, s, i + 1).Some? {
      FirstSuccessNext(env, rows, s, i);
    }
    forall s | s in cache' ensures cache'[s] == FetchSymbolData(env.http(FirstSuccess(env, rows, s, i + 1).value, s)).value {
      FirstSuccessNext(env, rows, s, i);
    }
  }

  /** What the loop has built once job `n` is reached: the cache, the rate window,
      the requests sent and the pauses taken. */
  ghost predicate Reached(env: Env, rows: seq<JobRow>, n: nat, cache: map<Symbol, Series>, window: RateWindow,
                          requests: seq<nat>, sleeps: seq<real>)
    requires n <= |rows|
  {
    && CacheHolds(env, rows, n, cache) && window == WindowAt(env, rows, n)
    && requests == Requests(env, rows, n) && sleeps == Sleeps(env, rows, n)
  }

  /** The cache lookup, and on a miss the rate check, the request and the counter
      update, for job `i`. */
  method FetchStep(env: Env, rows: seq<JobRow>, i: nat, cache: map<Symbol, Series>, window: RateWindow,
                   requests: seq<nat>, sleeps: seq<real>)
    returns (fetch: Result<Series>, cache': map<Symbol, Series>, window': RateWindow, requests': seq<nat>, sleeps': seq<real>)
    requires i < |rows| && Reached(env, rows, i, cache, window, requests, sleeps)
    ensures fetch == SeriesAt(env, rows, i)
    ensures Reached(env, rows, i + 1, cache', window', requests', sleeps')
  {
    var symbol := Upper(rows[i].symbol);
    var requested: seq<nat>, slept: seq<real> := [], [];
    cache', window' := cache, window;
    if symbol in cache {
      CacheHit(env, rows, i, cache);
      assert Attempts(env, rows, i + 1) == Attempts(env, rows, i) + [];
      assert Attempts(env, rows, i) + [] == Attempts(env, rows, i);
      fetch := Ok(cache[symbol]);
    } else {
      CacheMiss(env, rows, i, cache);
      var now := env.clock(BeforeFetch(i));
      var resumed := env.clock(AfterPause(i));
      var throttled := Throttle(window, now, resumed);
      if throttled.1.Some? {
        slept := [throttled.1.value];
      }
      requested := [i];
      fetch := FetchSymbolData(env.http(i, symbol));
      if fetch.Ok? {
        cache' := cache[symbol := fetch.value];
      }
      window' := Count(throttled.0, fetch.Ok?);
      ReplaySnoc(RateWindow(0, env.clock(Start)), Attempts(env, rows, i), AttemptAt(env, rows, i));
    }
    requests', sleeps' := requests + requested, sleeps + slept;
  }

  /** The jobs committed so far are the first jobs of the batch, each with the
      outcome the run comes to for it. */
  ghost predicate Committed(env: Env, date: Date, rows: seq<JobRow>, entries: seq<Entry>)
  {
    && |entries| <= |rows|
    && forall k :: 0 <= k < |entries| ==>
         entries[k].id == rows[k].id && VerdictAt(env, date, rows, k) == Commits(entries[k].outcome)
  }

  /** The database work for job `i` once its series is known: either one more
      committed entry, or the end of the run. */
  method JobStep(db: Connection, date: Date, env: Env, rows: seq<JobRow>, ghost jobs0: JobTable, ghost prices0: PriceTable,
                 entries: seq<Entry>, fetch: Result<Series>)
    returns (entries': seq<Entry>, stop: Option<Termination>)
    requires |entries| < |rows| && Committed(env, date, rows, entries)
    requires fetch == SeriesAt(env, rows, |entries|)
    requires db.Clean()
    requires db.jobs == ApplyAll(jobs0, entries) && db.prices == InsertAll(prices0, StoredRecords(entries))
    modifies db
    ensures stop.None? ==> |entries'| == |entries| + 1 && Committed(env, date, rows, entries')
    ensures stop.Some? ==> entries' == entries && stop.value != Completed
    ensures stop.Some? ==> stop.value == Ending(VerdictAt(env, date, rows, |entries|))
    ensures db.Clean()
    ensures db.jobs == ApplyAll(jobs0, entries') && db.prices == InsertAll(prices0, StoredRecords(entries'))
  {
    var i := |entries|;
    var plan := PlanFor(env, date, SymbolAt(rows, i), i, fetch);
    assert Execute(plan, env.halt(i)) == VerdictAt(env, date, rows, i);
    var v := Perform(db, rows[i].id, plan, env.halt(i));
    if !v.Commits? {
      return entries, Some(Ending(v));
    }
    var e := Entry(rows[i].id, v.outcome);
    ApplySnoc(jobs0, prices0, entries, e);
    CommittedSnoc(env, date, rows, entries, e);
    entries', stop := entries + [e], None;
  }

  lemma CommittedSnoc(env: Env, date: Date, rows: seq<JobRow>, entries: seq<Entry>, e: Entry)
    requires |entries| < |rows| && Committed(env, date, rows, entries)
    requires e.id == rows[|entries|].id && VerdictAt(env, date, rows, |entries|) == Commits(e.outcome)
    ensures Committed(env, date, rows, entries + [e])
  {
    var es := entries + [e];
    forall k | 0 <= k < |es| ensures es[k].id == rows[k].id && VerdictAt(env, date, rows, k) == Commits(es[k].outcome) {
      if k < |entries| {
        assert es[k] == entries[k];
      } else {
        assert k == |entries| && es[k] == e;
      }
    }
  }

  /** The `for job in jobs` loop over a non-empty batch. */
  method Process(db: Connection, date: Date, env: Env, rows: seq<JobRow>)
    returns (entries: seq<Entry>, stop: Option<Termination>, i: nat, requests: seq<nat>, sleeps: seq<real>)
    requires db.Clean()
    modifies db
    ensures i <= |rows| && Committed(env, date, rows, entries)
    ensures stop.None? ==> |entries| == i == |rows|
    ensures stop.Some? ==> |entries| + 1 == i && stop.value != Completed
    ensures stop.Some? ==> stop.value == Ending(VerdictAt(env, date, rows, |entries|))
    ensures requests == Requests(env, rows, i) && sleeps == Sleeps(env, rows, i)
    ensures db.Clean()
    ensures db.jobs == ApplyAll(old(db.jobs), entries)
    ensures db.prices == InsertAll(old(db.prices), StoredRecords(entries))
  {
    entries, requests, sleeps := [], [], [];
    var cache: map<Symbol, Series> := map[];
    var window := RateWindow(0, env.clock(Start));
    i, stop := 0, None;
    while i < |rows| && stop.None?
      invariant i <= |rows| && Committed(env, date, rows, entries)
      invariant stop.None? ==> |entries| == i
      invariant stop.Some? ==> |entries| + 1 == i && stop.value != Completed
      invariant stop.Some? ==> stop.value == Ending(VerdictAt(env, date, rows, |entries|))
      invariant Reached(env, rows, i, cache, window, requests, sleeps)
      invariant db.Clean()
      invariant db.jobs == ApplyAll(old(db.jobs), entries)
      invariant db.prices == InsertAll(old(db.prices), StoredRecords(entries))
    {
      var fetch;
      fetch, cache, window, requests, sleeps := FetchStep(env, rows, i, cache, window, requests, sleeps);
      entries, stop := JobStep(db, date, env, rows, old(db.jobs), old(db.prices), entries, fetch);
      i := i + 1;
    }
  }

  /** The whole run, from loading the batch to closing the connection. Returns the
      batch, the committed jobs in order, how the run ended, the jobs that sent a
      request, and the pauses. */
  method Run(db: Connection, date: Date, env: Env)
    returns (rows: seq<JobRow>, entries: seq<Entry>, term: Termination, requests: seq<nat>, sleeps: seq<real>)
    requires db.Clean()
    modifies db
    ensures Ids(rows) == set id | id in old(db.jobs) && Matches(PendingOn(date), old(db.jobs)[id])
    ensures forall r :: r in rows ==> r.id in old(db.jobs) && r == RowOf(r.id, old(db.jobs)[r.id])
    ensures DistinctIds(rows) && Sorted(rows)
    ensures Committed(env, date, rows, entries)
    ensures term == Completed <==> |entries| == |rows|
    ensures term != Completed ==> |entries| < |rows| && term == Ending(VerdictAt(env, date, rows, |entries|))
    ensures var reached := if term == Completed then |rows| else |entries| + 1;
      reached <= |rows| && requests == Requests(env, rows, reached) && sleeps == Sleeps(env, rows, reached)
    ensures db.Clean()
    ensures db.jobs == ApplyAll(old(db.jobs), entries)
    ensures db.prices == InsertAll(old(db.prices), StoredRecords(entries))
    ensures rows == [] ==> db.jobs == old(db.jobs) && db.prices == old(db.prices) && requests == [] && sleeps == []
    ensures term == Completed ==> forall id :: id in old(db.jobs) && Matches(PendingOn(date), old(db.jobs)[id]) ==>
      id in db.jobs && db.jobs[id].status != Pending
  {
    rows := Select(db.jobs, PendingOn(date));
    if rows == [] {
      // "Nothing to do": the script exits before the loop
      assert forall id :: id in old(db.jobs) && Matches(PendingOn(date), old(db.jobs)[id]) ==> id in Ids(rows);
      return rows, [], Completed, [], [];
    }
    var stop, reached;
    entries, stop, reached, requests, sleeps := Process(db, date, env, rows);
    if stop.Some? {
      term := stop.value;
      assert term != Completed && reached == |entries| + 1;
    } else {
      term := Completed;
      assert reached == |entries| == |rows|;
      AllEntered(old(db.jobs), rows, entries);
    }
  }

  /** A request is sent exactly when no earlier job of the same symbol got a series:
      a failed request is not cached, so the next job of that symbol asks again. */
  lemma FetchedWhenNotCached(env: Env, rows: seq<JobRow>, k: nat)
    requires k < |rows|
    ensures Fetched(env, rows, k) <==>
      forall j :: 0 <= j < k && SymbolAt(rows, j) == SymbolAt(rows, k) ==> !Usable(env.http(j, SymbolAt(rows, k)))
  {
    var sym := SymbolAt(rows, k);
    forall j | 0 <= j < k
      ensures SucceededAt(env, rows, sym, j) <==> SymbolAt(rows, j) == sym && Usable(env.http(j, sym))
    {
    }
  }

  /** A symbol whose request succeeded is never requested again in the run, and every
      later job of that symbol works with that one series. */
  lemma SucceededNotRefetched(env: Env, rows: seq<JobRow>, j: nat, k: nat)
    requires j < k < |rows| && SymbolAt(rows, j) == SymbolAt(rows, k)
    requires Fetched(env, rows, j) && Usable(env.http(j, SymbolAt(rows, j)))
    ensures !Fetched(env, rows, k)
    ensures SourceOf(env, rows, k) == j
    ensures SeriesAt(env, rows, k) == FetchSymbolData(env.http(j, SymbolAt(rows, j)))
  {
    var sym := SymbolAt(rows, j);
    assert SucceededAt(env, rows, sym, j);
    var first := FirstSuccess(env, rows, sym, k);
    assert first.Some?;
  }

  /** An increasing list of positions below `m`, extended by `m` or by nothing. */
  lemma ExtendIncreasing(front: seq<nat>, tail: seq<nat>, m: nat)
    requires tail == [] || tail == [m]
    requires forall k :: k in front ==> k < m
    requires forall a, b :: 0 <= a < b < |front| ==> front[a] < front[b]
    ensures forall k :: k in front + tail <==> k in front || k in tail
    ensures forall a, b :: 0 <= a < b < |front + tail| ==> (front + tail)[a] < (front + tail)[b]
  {
    forall a, b | 0 <= a < b < |front + tail| ensures (front + tail)[a] < (front + tail)[b] {
      assert (front + tail)[a] == front[a];
      if b >= |front| { assert front[a] in front; }
    }
  }

  /** `Requests` lists exactly the jobs that sent a request, in increasing order. */
  lemma RequestsExact(env: Env, rows: seq<JobRow>, n: nat)
    requires n <= |rows|
    ensures forall k: nat :: k in Requests(env, rows, n) <==> k < n && Fetched(env, rows, k)
    ensures forall a, b :: 0 <= a < b < |Requests(env, rows, n)| ==> Requests(env, rows, n)[a] < Requests(env, rows, n)[b]
  {
    forall k: nat ensures k in Requests(env, rows, n) <==> k < n && Fetched(env, rows, k) {
      RequestsMember(env, rows, n, k);
    }
    RequestsIncreasing(env, rows, n);
  }

  lemma RequestsMember(env: Env, rows: seq<JobRow>, n: nat, k: nat)
    requires n <= |rows|
    ensures k in Requests(env, rows, n) <==> k < n && Fetched(env, rows, k)
  {
    RequestsIndices(env, rows, n);
    IndicesMember(FetchedFlags(env, rows, n), k);
  }

  /** Whether each of the first `n` jobs sends a request. */
  ghost function FetchedFlags(env: Env, rows: seq<JobRow>, n: nat): (flags: seq<bool>)
    requires n <= |rows|
    ensures |flags| == n && forall k :: 0 <= k < n ==> flags[k] == Fetched(env, rows, k)
  {
    seq(n, k requires 0 <= k < n => Fetched(env, rows, k))
  }

  /** The positions of the set flags, in order. */
  function Indices(flags: seq<bool>): seq<nat>
  {
    if flags == [] then [] else
      Indices(flags[..|flags| - 1]) + (if flags[|flags| - 1] then [|flags| - 1] else [])
  }

  lemma {:induction false} IndicesMember(flags: seq<bool>, k: nat)
    ensures k in Indices(flags) <==> k < |flags| && flags[k]
    decreases |flags|
  {
    if flags != [] {
      var n := |flags| - 1;
      IndicesMember(flags[..n], k);
      InSnoc(Indices(flags[..n]), n, flags[n], k);
    }
  }

  lemma {:induction false} RequestsIndices(env: Env, rows: seq<JobRow>, n: nat)
    requires n <= |rows|
    ensures Requests(env, rows, n) == Indices(FetchedFlags(env, rows, n))
    decreases n
  {
    if n > 0 {
      RequestsIndices(env, rows, n - 1);
      assert FetchedFlags(env, rows, n)[..n - 1] == FetchedFlags(env, rows, n - 1);
    }
  }

  /** Membership in a sequence extended by at most one element. */
  lemma InSnoc(front: seq<nat>, x: nat, b: bool, k: nat)
    ensures k in front + (if b then [x] else []) <==> k in front || (b && k == x)
  {
  }

  lemma {:induction false} RequestsIncreasing(env: Env, rows: seq<JobRow>, n: nat)
    requires n <= |rows|
    ensures forall k :: k in Requests(env, rows, n) ==> k < n
    ensures forall a, b :: 0 <= a < b < |Requests(env, rows, n)| ==> Requests(env, rows, n)[a] < Requests(env, rows, n)[b]
    decreases n
  {
    if n > 0 {
      RequestsIncreasing(env, rows, n - 1);
      var front := Requests(env, rows, n - 1);
      var tail: seq<nat> := if Fetched(env, rows, n - 1) then [n - 1] else [];
      assert Requests(env, rows, n) == front + tail;
      ExtendIncreasing(front, tail, n - 1);
    }
  }

  /** Two requests for the same symbol: the earlier one failed. */
  lemma SecondRequestFollowsFailure(env: Env, rows: seq<JobRow>, j: nat, k: nat)
    requires j < k < |rows| && SymbolAt(rows, j) == SymbolAt(rows, k)
    requires Fetched(env, rows, j) && Fetched(env, rows, k)
    ensures !Usable(env.http(j, SymbolAt(rows, j)))
  {
    if Usable(env.http(j, SymbolAt(rows, j))) {
      SucceededNotRefetched(env, rows, j, k);
    }
  }

  /** The outcome of each job, with its exact message: the request's exception, the
      missing date, or the INSERT's error, each leaving the price table alone; or the
      record of `(symbol.upper(), trade_date)` with the defaults for absent fields. */
  lemma DecideOutcomes(env: Env, date: Date, sym: Symbol, k: nat, fetch: Result<Series>)
    requires env.halt(k).None?
    ensures fetch.Err? ==> Decide(env, date, sym, k, fetch) == Commits(FailedWith(ApiErrorPrefix + fetch.error))
    ensures fetch.Ok? && date !in fetch.value ==> Decide(env, date, sym, k, fetch) == Commits(FailedWith(NoDataMessage))
    ensures fetch.Ok? && date in fetch.value ==>
      var built := BuildRecord(sym, date, fetch.value[date], env.conv, WhenAbsent);
      && (built.Err? ==> Decide(env, date, sym, k, fetch) == Crashes(built.error))
      && (built.Ok? && env.rejects(k).Some? ==>
            Decide(env, date, sym, k, fetch) == Commits(FailedWith(InsertErrorPrefix + env.rejects(k).value)))
      && (built.Ok? && env.rejects(k).None? ==> Decide(env, date, sym, k, fetch) == Commits(Succeeded(built.value)))
    ensures Decide(env, date, sym, k, fetch).Commits? && Decide(env, date, sym, k, fetch).outcome.Succeeded? ==>
      var r := Decide(env, date, sym, k, fetch).outcome.record;
      && KeyOf(r) == (sym, date)
      && fetch.Ok? && date in fetch.value
      && (DividendField !in fetch.value[date] ==> r.dividendAmount == NoDividend)
      && (SplitField !in fetch.value[date] ==> r.splitCoefficient == NoSplit)
  {
  }

  /** A pause is made only when the cap is reached inside the window, and it is the
      positive rest of the window. */
  lemma PauseIsRestOfWindow(env: Env, rows: seq<JobRow>, k: nat)
    requires k < |rows| && PauseAt(env, rows, k).Some?
    ensures Fetched(env, rows, k)
    ensures MustPause(WindowAt(env, rows, k), env.clock(BeforeFetch(k)))
    ensures PauseAt(env, rows, k).value == CooldownSeconds - (env.clock(BeforeFetch(k)) - WindowAt(env, rows, k).minuteStart)
    ensures PauseAt(env, rows, k).value > 0.0
  {
  }

  /** With a clock that never goes back, the counter is at most the cap whenever the
      window is younger than 60 s. */
  lemma WindowWithinCap(env: Env, rows: seq<JobRow>, n: nat)
    requires n <= |rows| && Monotone(env.clock(Start), Attempts(env, rows, n))
    ensures var a := Attempts(env, rows, n);
      WithinCap(WindowAt(env, rows, n), if a == [] then env.clock(Start) else a[|a| - 1].resumed)
  {
    ReplayWithinCap(RateWindow(0, env.clock(Start)), env.clock(Start), Attempts(env, rows, n));
  }
}
