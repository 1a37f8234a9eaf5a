/** The several-days Alpha Vantage loop: the PENDING jobs of the fixed trade date,
    grouped by symbol, one request per group under the fixed-window rate counter; a
    failed request fails the whole group under one commit, otherwise each job is
    committed on its own. */
module SeveralDays {
  import opened Wrappers
  import opened Text
  import opened Prices
  import opened Jobs
  import opened Database
  import opened RateLimit
  import opened AlphaVantage
  import opened Outcomes
  import opened Grouping
  import opened GroupRuns

  /** The trade date the query is fixed to, 2025-06-23, as a day number. */
  const QueryDate: Date := 20262

  /** The collaborators of one run: the response to the request of group `g`, the
      clock, the text conversions, the error the INSERT of job `j` of group `g`
      raises (if any), and the aborts. */
  datatype Env = Env(
    http: (nat, Symbol) -> HttpOutcome,
    clock: ClockRead -> real,
    conv: Conversions,
    rejects: (nat, nat) -> Option<string>,
    halt: Halts)

  /** `symbol.upper()` of group `g`. */
  function SymbolOf(groups: seq<Group>, g: nat): Symbol
    requires g < |groups|
  {
    Upper(groups[g].symbol)
  }

  /** `fetch_symbol_data(symbol_upper)` of group `g`. */
  function FetchAt(env: Env, groups: seq<Group>, g: nat): Result<Series>
    requires g < |groups|
  {
    FetchSymbolDataWrapped(SymbolOf(groups, g), env.http(g, SymbolOf(groups, g)))
  }

  /** Job `j` of group `g` once the series is in hand: the missing date fails the job;
      a record that cannot be built, like an INSERT that raises, is caught and fails
      the job with `"Insert error: "` and the exception's text. */
  function JobPlan(env: Env, sym: Symbol, series: Series, row: JobRow, g: nat, j: nat): Plan
  {
    if row.tradeDate !in series then Fail(NoDataMessage)
    else match BuildRecord(sym, row.tradeDate, series[row.tradeDate], env.conv, WhenAbsentOrEmpty)
      case Err(e) => Fail(InsertErrorPrefix + e)
      case Ok(r) => Store(r, env.rejects(g, j))
  }

  /** Group `g` given its request's outcome: the exception fails every job of the
      group with `"API error: "` and its text; otherwise one plan per job. */
  function PlanFor(env: Env, groups: seq<Group>, g: nat, fetch: Result<Series>): (p: GroupPlan)
    requires g < |groups|
    ensures Fits(p, groups[g].rows)
  {
    match fetch
    case Err(e) => FailAll(ApiErrorPrefix + e)
    case Ok(series) =>
      var rows := groups[g].rows;
      Each(seq(|rows|, j requires 0 <= j < |rows| => JobPlan(env, SymbolOf(groups, g), series, rows[j], g, j)))
  }

  function GroupPlanAt(env: Env, groups: seq<Group>, g: nat): (p: GroupPlan)
    requires g < |groups|
    ensures Fits(p, groups[g].rows)
  {
    PlanFor(env, groups, g, FetchAt(env, groups, g))
  }

  function Plans(env: Env, groups: seq<Group>): (ps: seq<GroupPlan>)
    ensures AllFit(ps, groups)
  {
    seq(|groups|, g requires 0 <= g < |groups| => GroupPlanAt(env, groups, g))
  }

  /** The plan the loop builds from group `g`'s request is that group's plan. */
  lemma PlanOfFetch(env: Env, groups: seq<Group>, g: nat, fetch: Result<Series>)
    requires g < |groups| && fetch == FetchAt(env, groups, g)
    ensures PlanFor(env, groups, g, fetch) == Plans(env, groups)[g]
  {
  }

  /** The clock readings and the success of group `g`'s request. */
  function AttemptAt(env: Env, groups: seq<Group>, g: nat): Attempt
    requires g < |groups|
  {
    Attempt(env.clock(BeforeFetch(g)), env.clock(AfterPause(g)), FetchAt(env, groups, g).Ok?)
  }

  /** The requests of the groups before `n`: every group sends one. */
  function Attempts(env: Env, groups: seq<Group>, n: nat): (r: seq<Attempt>)
    requires n <= |groups|
    ensures |r| == n && forall k :: 0 <= k < n ==> r[k] == AttemptAt(env, groups, k)
  {
    if n == 0 then [] else Attempts(env, groups, n - 1) + [AttemptAt(env, groups, n - 1)]
  }

  /** `req_counter` and `start_minute` when group `g` is reached. */
  function WindowAt(env: Env, groups: seq<Group>, g: nat): RateWindow
    requires g <= |groups|
  {
    Replay(RateWindow(0, env.clock(Start)), Attempts(env, groups, g))
  }

  function PauseAt(env: Env, groups: seq<Group>, g: nat): Option<real>
    requires g < |groups|
  {
    Throttle(WindowAt(env, groups, g), env.clock(BeforeFetch(g)), env.clock(AfterPause(g))).1
  }

  /** The symbols requested by the groups before `n`, in order. */
  function Requests(groups: seq<Group>, n: nat): (r: seq<Symbol>)
    requires n <= |groups|
    ensures |r| == n && forall g :: 0 <= g < n ==> r[g] == Upper(groups[g].symbol)
  {
    if n == 0 then [] else Requests(groups, n - 1) + [SymbolOf(groups, n - 1)]
  }

  /** The `time.sleep` durations of the groups before `n`, in order. */
  function Sleeps(env: Env, groups: seq<Group>, n: nat): seq<real>
    requires n <= |groups|
  {
    if n == 0 then [] else Sleeps(env, groups, n - 1) + (if PauseAt(env, groups, n - 1).Some? then [PauseAt(env, groups, n - 1).value] else [])
  }

  /** The rate check and the request of group `g`. */
  method FetchStep(env: Env, groups: seq<Group>, g: nat, window: RateWindow, requests: seq<Symbol>, sleeps: seq<real>)
    returns (fetch: Result<Series>, window': RateWindow, requests': seq<Symbol>, sleeps': seq<real>)
    requires g < |groups| && window == WindowAt(env, groups, g)
    requires requests == Requests(groups, g) && sleeps == Sleeps(env, groups, g)
    ensures fetch == FetchAt(env, groups, g)
    ensures window' == WindowAt(env, groups, g + 1)
    ensures requests' == Requests(groups, g + 1) && sleeps' == Sleeps(env, groups, g + 1)
  {
    var symbol := Upper(groups[g].symbol);
    var now := env.clock(BeforeFetch(g));
    var resumed := env.clock(AfterPause(g));
    var throttled := Throttle(window, now, resumed);
    sleeps' := sleeps;
    if throttled.1.Some? {
      sleeps' := sleeps + [throttled.1.value];
    } else {
      assert sleeps + [] == sleeps;
    }
    requests' := requests + [symbol];
    fetch := FetchSymbolDataWrapped(symbol, env.http(g, symbol));
    window' := Count(throttled.0, fetch.Ok?);
    ReplaySnoc(RateWindow(0, env.clock(Start)), Attempts(env, groups, g), AttemptAt(env, groups, g));
  }

  /** The `for symbol, group in jobs_by_symbol` loop. Returns the committed jobs and
      how the loop stopped, the requested symbols and the pauses, and the number of
      groups reached. */
  method Process(db: Connection, env: Env, groups: seq<Group>)
    returns (trace: Trace, requests: seq<Symbol>, sleeps: seq<real>, reached: nat)
    requires db.Clean()
    modifies db
    ensures trace == GroupsFrom(groups, Plans(env, groups), env.halt, 0)
    ensures reached <= |groups| && (trace.stop.None? ==> reached == |groups|)
    ensures requests == Requests(groups, reached) && sleeps == Sleeps(env, groups, reached)
    ensures db.Clean()
    ensures db.jobs == ApplyAll(old(db.jobs), trace.entries)
    ensures db.prices == InsertAll(old(db.prices), StoredRecords(trace.entries))
  {
    ghost var plans := Plans(env, groups);
    var entries: seq<Entry> := [];
    requests, sleeps := [], [];
    var window := RateWindow(0, env.clock(Start));
    reached := 0;
    var stop: Option<Termination> := None;
    assert GroupsFrom(groups, plans, env.halt, 0) == Then(entries, GroupsFrom(groups, plans, env.halt, reached));
    while reached < |groups| && stop.None?
      invariant reached <= |groups|
      invariant stop.None? ==> GroupsFrom(groups, plans, env.halt, 0) == Then(entries, GroupsFrom(groups, plans, env.halt, reached))
      invariant stop.Some? ==> GroupsFrom(groups, plans, env.halt, 0) == Trace(entries, stop)
      invariant window == WindowAt(env, groups, reached)
      invariant requests == Requests(groups, reached) && sleeps == Sleeps(env, groups, reached)
      invariant db.Clean()
      invariant db.jobs == ApplyAll(old(db.jobs), entries)
      invariant db.prices == InsertAll(old(db.prices), StoredRecords(entries))
    {
      var fetch;
      fetch, window, requests, sleeps := FetchStep(env, groups, reached, window, requests, sleeps);
      var plan := PlanFor(env, groups, reached, fetch);
      PlanOfFetch(env, groups, reached, fetch);
      entries, stop := GroupStep(db, groups, plans, plan, env.halt, reached, old(db.jobs), old(db.prices), entries);
      reached := reached + 1;
    }
    assert stop.None? ==> entries + [] == entries;
    trace := Trace(entries, stop);
  }

  /** The whole run, from loading the batch to closing the connection. */
  method Run(db: Connection, env: Env)
    returns (rows: seq<JobRow>, groups: seq<Group>, trace: Trace, requests: seq<Symbol>, sleeps: seq<real>, reached: nat)
    requires db.Clean()
    modifies db
    ensures Ids(rows) == set id | id in old(db.jobs) && Matches(PendingOn(QueryDate), old(db.jobs)[id])
    ensures forall r :: r in rows ==> r.id in old(db.jobs) && r == RowOf(r.id, old(db.jobs)[r.id])
    ensures DistinctIds(rows) && Sorted(rows)
    ensures groups == GroupBy(rows)
    ensures trace == GroupsFrom(groups, Plans(env, groups), env.halt, 0)
    ensures reached <= |groups| && (trace.stop.None? ==> reached == |groups|)
    ensures requests == Requests(groups, reached) && sleeps == Sleeps(env, groups, reached)
    ensures db.Clean()
    ensures db.jobs == ApplyAll(old(db.jobs), trace.entries)
    ensures db.prices == InsertAll(old(db.prices), StoredRecords(trace.entries))
    ensures trace.stop.None? ==> forall id :: id in old(db.jobs) && Matches(PendingOn(QueryDate), old(db.jobs)[id]) ==>
      id in db.jobs && db.jobs[id].status != Pending
  {
    rows := Select(db.jobs, PendingOn(QueryDate));
    groups := GroupBy(rows);
    if rows == [] {
      // "No pending jobs — nothing to do": the script exits before the loop
      assert forall id :: id in old(db.jobs) && Matches(PendingOn(QueryDate), old(db.jobs)[id]) ==> id in Ids(rows);
      return rows, groups, Trace([], None), [], [], 0;
    }
    trace, requests, sleeps, reached := Process(db, env, groups);
    if trace.stop.None? {
      SortedRowsBySymbol(rows);
      GroupByFlatten(rows);
      CompletedCoversAll(groups, Plans(env, groups), env.halt);
      AllEntered(old(db.jobs), rows, trace.entries);
    }
  }

  /** A failed request fails every job of its group with the text wrapped twice:
      `"API error: " + symbol + " API error: " + the exception's text`. */
  lemma GroupFailureMessage(env: Env, groups: seq<Group>, g: nat)
    requires g < |groups| && FetchAt(env, groups, g).Err?
    ensures GroupPlanAt(env, groups, g) ==
      FailAll(ApiErrorPrefix + SymbolOf(groups, g) + " API error: " + FetchSymbolData(env.http(g, SymbolOf(groups, g))).error)
    ensures env.halt(g, 0).None? ==>
      var t := GroupRun(GroupPlanAt(env, groups, g), groups[g].rows, env.halt, g);
      t.stop.None? && forall k :: 0 <= k < |groups[g].rows| ==>
        t.entries[k] == Entry(groups[g].rows[k].id, FailedWith(GroupPlanAt(env, groups, g).message))
  {
    assert ApiErrorPrefix + (SymbolOf(groups, g) + " API error: " + FetchSymbolData(env.http(g, SymbolOf(groups, g))).error)
        == ApiErrorPrefix + SymbolOf(groups, g) + " API error: " + FetchSymbolData(env.http(g, SymbolOf(groups, g))).error;
  }

  /** The outcome of each job of a group whose request returned a series, with its
      exact message: the missing date, the record that cannot be built, the INSERT's
      error; or the record of `(symbol.upper(), trade_date)`, an empty dividend or
      split text falling back to its default. */
  lemma JobOutcomes(env: Env, sym: Symbol, series: Series, row: JobRow, g: nat, j: nat)
    requires env.halt(g, j).None?
    ensures var v := Execute(JobPlan(env, sym, series, row, g, j), env.halt(g, j));
      && v.Commits?
      && (row.tradeDate !in series ==> v.outcome == FailedWith(NoDataMessage))
      && (row.tradeDate in series ==>
            var built := BuildRecord(sym, row.tradeDate, series[row.tradeDate], env.conv, WhenAbsentOrEmpty);
            && (built.Err? ==> v.outcome == FailedWith(InsertErrorPrefix + built.error))
            && (built.Ok? && env.rejects(g, j).Some? ==> v.outcome == FailedWith(InsertErrorPrefix + env.rejects(g, j).value))
            && (built.Ok? && env.rejects(g, j).None? ==> v.outcome == Succeeded(built.value)))
    ensures var v := Execute(JobPlan(env, sym, series, row, g, j), env.halt(g, j));
      v.Commits? && v.outcome.Succeeded? ==>
        && KeyOf(v.outcome.record) == (sym, row.tradeDate)
        && row.tradeDate in series
        && (UsesDefault(series[row.tradeDate], DividendField, WhenAbsentOrEmpty) ==> v.outcome.record.dividendAmount == NoDividend)
        && (UsesDefault(series[row.tradeDate], SplitField, WhenAbsentOrEmpty) ==> v.outcome.record.splitCoefficient == NoSplit)
  {
  }

  /** A missing `1. open`, the other required fields present and readable, fails the
      job with the `KeyError` text: `Insert error: '1. open'`. */
  lemma MissingOpenFails(env: Env, sym: Symbol, series: Series, row: JobRow, g: nat, j: nat)
    requires env.halt(g, j).None? && row.tradeDate in series
    requires var rec := series[row.tradeDate];
      && OpenField !in rec
      && (forall k :: k in RequiredFields && k != OpenField ==> k in rec)
      && (forall k :: k in RequiredFields && k != OpenField && k != VolumeField ==> env.conv.toFloat(rec[k]).Ok?)
    ensures Execute(JobPlan(env, sym, series, row, g, j), env.halt(g, j)) == Commits(FailedWith("Insert error: '1. open'"))
  {
    MissingFieldNamed(sym, row.tradeDate, series[row.tradeDate], env.conv, WhenAbsentOrEmpty, OpenField);
    assert InsertErrorPrefix + KeyErrorText(OpenField) == "Insert error: '1. open'";
  }

  /** Every committed job is a job of a reached group, with the outcome its group's
      request and its own plan give it. */
  lemma EntryOutcome(env: Env, groups: seq<Group>, e: Entry)
    requires e in GroupsFrom(groups, Plans(env, groups), env.halt, 0).entries
    ensures exists g, j ::
      && 0 <= g < |groups| && 0 <= j < |groups[g].rows| && groups[g].rows[j].id == e.id
      && (FetchAt(env, groups, g).Err? ==> e.outcome == FailedWith(ApiErrorPrefix + FetchAt(env, groups, g).error))
      && (FetchAt(env, groups, g).Ok? ==>
            Execute(JobPlan(env, SymbolOf(groups, g), FetchAt(env, groups, g).value, groups[g].rows[j], g, j), env.halt(g, j))
              == Commits(e.outcome))
  {
    var plans := Plans(env, groups);
    GroupsFromOutcomes(groups, plans, env.halt, 0, e);
    var g, j :| 0 <= g < |groups| && 0 <= j < |groups[g].rows| && groups[g].rows[j].id == e.id &&
      (if plans[g].FailAll? then e.outcome == FailedWith(plans[g].message)
       else Execute(plans[g].plans[j], env.halt(g, j)) == Commits(e.outcome));
    assert plans[g] == GroupPlanAt(env, groups, g);
  }

  /** Every group sends its request, whatever became of the previous ones: raw symbols
      that differ only in case form two groups, and both request the same symbol. */
  lemma CaseVariantsRequestedTwice(groups: seq<Group>, a: nat, b: nat)
    requires a < b < |groups| && groups[a].symbol != groups[b].symbol && Upper(groups[a].symbol) == Upper(groups[b].symbol)
    ensures Requests(groups, |groups|)[a] == Requests(groups, |groups|)[b]
  {
  }

  /** With a clock that never goes back, the counter is at most the cap whenever the
      window is younger than 60 s. */
  lemma WindowWithinCap(env: Env, groups: seq<Group>, n: nat)
    requires n <= |groups| && Monotone(env.clock(Start), Attempts(env, groups, n))
    ensures WithinCap(WindowAt(env, groups, n), if n == 0 then env.clock(Start) else env.clock(AfterPause(n - 1)))
  {
    ReplayWithinCap(RateWindow(0, env.clock(Start)), env.clock(Start), Attempts(env, groups, n));
  }
}
