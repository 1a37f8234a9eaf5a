/** The yfinance recovery loop: the FAILED jobs whose message is the missing-date or
    the read-timeout text, grouped by symbol, one download per group covering the
    group's dates; a failed or empty download fails the whole group under one
    commit, otherwise each job is committed on its own. */
module Recovery {
  import opened Wrappers
  import opened Text
  import opened Prices
  import opened Jobs
  import opened Database
  import opened Outcomes
  import opened Grouping
  import opened GroupRuns

  /** The frame `yf.download` returns after its columns are renamed: a row per date,
      a float per column name. */
  type Frame = map<Date, map<string, Float>>

  /** The frame, or the text of the exception `yf.download` raised. */
  datatype Download = Raised(reason: string) | Downloaded(frame: Frame)

  const YfinanceErrorPrefix: string := "yfinance error: "
  const EmptyFrameMessage: string := "No data returned from yfinance"

  const OpenColumn: string := "open"
  const HighColumn: string := "high"
  const LowColumn: string := "low"
  const CloseColumn: string := "close"
  const AdjustedCloseColumn: string := "adjusted_close"
  const VolumeColumn: string := "volume"

  /** The columns the record reads, in the order it reads them. */
  const Columns: seq<string> := [OpenColumn, HighColumn, LowColumn, CloseColumn, AdjustedCloseColumn, VolumeColumn]

  /** The collaborators of one run: the download of group `g` for a symbol and a
      `[start, end)` window, the error the INSERT of job `j` of group `g` raises (if
      any), and the aborts. */
  datatype Env = Env(
    download: (nat, Symbol, Date, Date) -> Download,
    rejects: (nat, nat) -> Option<string>,
    halt: Halts)

  /** `df.empty`: no rows, or no columns. */
  predicate FrameEmpty(f: Frame)
  {
    f == map[] || forall d :: d in f ==> f[d] == map[]
  }

  /** `min(dates)`. */
  function MinDate(rows: seq<JobRow>): (m: Date)
    requires rows != []
    ensures exists k :: 0 <= k < |rows| && rows[k].tradeDate == m
    ensures forall k :: 0 <= k < |rows| ==> m <= rows[k].tradeDate
  {
    if |rows| == 1 then rows[0].tradeDate
    else
      var m := MinDate(rows[1..]);
      assert forall k :: 1 <= k < |rows| ==> rows[k] == rows[1..][k - 1];
      if rows[0].tradeDate <= m then rows[0].tradeDate else m
  }

  /** `max(dates)`. */
  function MaxDate(rows: seq<JobRow>): (m: Date)
    requires rows != []
    ensures exists k :: 0 <= k < |rows| && rows[k].tradeDate == m
    ensures forall k :: 0 <= k < |rows| ==> rows[k].tradeDate <= m
  {
    if |rows| == 1 then rows[0].tradeDate
    else
      var m := MaxDate(rows[1..]);
      assert forall k :: 1 <= k < |rows| ==> rows[k] == rows[1..][k - 1];
      if rows[0].tradeDate >= m then rows[0].tradeDate else m
  }

  /** `start=min_date - 1 day`, `end=max_date + 1 day`. */
  function Window(rows: seq<JobRow>): (w: (Date, Date))
    requires rows != []
  {
    (MinDate(rows) - 1, MaxDate(rows) + 1)
  }

  /** The window holds every date of the group, strictly inside it: yfinance's end
      is exclusive, so the last date is still downloaded. */
  lemma WindowCovers(rows: seq<JobRow>)
    requires rows != []
    ensures forall k :: 0 <= k < |rows| ==> Window(rows).0 < rows[k].tradeDate < Window(rows).1
    ensures Window(rows).1 - Window(rows).0 >= 2
  {
    var k :| 0 <= k < |rows| && rows[k].tradeDate == MinDate(rows);
  }

  predicate NonEmptyGroups(groups: seq<Group>)
  {
    forall grp :: grp in groups ==> grp.rows != []
  }

  function SymbolOf(groups: seq<Group>, g: nat): Symbol
    requires g < |groups|
  {
    Upper(groups[g].symbol)
  }

  /** The arguments of group `g`'s download: the symbol and the window. */
  function RequestAt(groups: seq<Group>, g: nat): (Symbol, Date, Date)
    requires g < |groups| && groups[g].rows != []
  {
    (SymbolOf(groups, g), Window(groups[g].rows).0, Window(groups[g].rows).1)
  }

  function DownloadAt(env: Env, groups: seq<Group>, g: nat): Download
    requires g < |groups| && groups[g].rows != []
  {
    var (sym, start, end) := RequestAt(groups, g);
    env.download(g, sym, start, end)
  }

  /** Job `j` of group `g` once the frame is in hand: a date or a column the frame
      lacks raises `KeyError`, which marks the job with the missing-date message;
      a NaN volume makes `int` raise, which fails the job with `"Insert error: "`;
      the dividend and the split always take their defaults. */
  function JobPlan(env: Env, sym: Symbol, frame: Frame, row: JobRow, g: nat, j: nat): Plan
  {
    if row.tradeDate !in frame then Fail(NoDataMessage)
    else
      var data := frame[row.tradeDate];
      if exists c :: c in Columns && c !in data then Fail(NoDataMessage)
      else match IntOf(data[VolumeColumn])
        case Err(e) => Fail(InsertErrorPrefix + e)
        case Ok(volume) =>
          Store(Record(sym, row.tradeDate, Round(data[OpenColumn]), Round(data[HighColumn]), Round(data[LowColumn]),
                       Round(data[CloseColumn]), Round(data[AdjustedCloseColumn]), volume, NoDividend, NoSplit),
                env.rejects(g, j))
  }

  /** Group `g` given its download: the exception, or an empty frame, fails every
      job of the group; otherwise one plan per job. */
  function PlanFor(env: Env, groups: seq<Group>, g: nat, d: Download): (p: GroupPlan)
    requires g < |groups|
    ensures Fits(p, groups[g].rows)
  {
    match d
    case Raised(e) => FailAll(YfinanceErrorPrefix + e)
    case Downloaded(frame) =>
      if FrameEmpty(frame) then FailAll(EmptyFrameMessage)
      else
        var rows := groups[g].rows;
        Each(seq(|rows|, j requires 0 <= j < |rows| => JobPlan(env, SymbolOf(groups, g), frame, rows[j], g, j)))
  }

  function GroupPlanAt(env: Env, groups: seq<Group>, g: nat): (p: GroupPlan)
    requires g < |groups| && groups[g].rows != []
    ensures Fits(p, groups[g].rows)
  {
    PlanFor(env, groups, g, DownloadAt(env, groups, g))
  }

  function Plans(env: Env, groups: seq<Group>): (ps: seq<GroupPlan>)
    requires NonEmptyGroups(groups)
    ensures AllFit(ps, groups)
  {
    seq(|groups|, g requires 0 <= g < |groups| => GroupPlanAt(env, groups, g))
  }

  /** The plan the loop builds from group `g`'s download is that group's plan. */
  lemma PlanOfDownload(env: Env, groups: seq<Group>, g: nat, d: Download)
    requires NonEmptyGroups(groups) && g < |groups| && d == DownloadAt(env, groups, g)
    ensures PlanFor(env, groups, g, d) == Plans(env, groups)[g]
  {
  }

  /** The downloads of the groups before `n`, in order: every group makes one. */
  function Requests(groups: seq<Group>, n: nat): (r: seq<(Symbol, Date, Date)>)
    requires n <= |groups| && NonEmptyGroups(groups)
    ensures |r| == n && forall g :: 0 <= g < n ==> r[g] == RequestAt(groups, g)
  {
    if n == 0 then [] else Requests(groups, n - 1) + [RequestAt(groups, n - 1)]
  }

  /** The `yf.download` call of group `g`, and the plan its result gives the group. */
  method DownloadStep(env: Env, groups: seq<Group>, g: nat, requests: seq<(Symbol, Date, Date)>)
    returns (plan: GroupPlan, requests': seq<(Symbol, Date, Date)>)
    requires NonEmptyGroups(groups) && g < |groups| && requests == Requests(groups, g)
    ensures plan == Plans(env, groups)[g] && requests' == Requests(groups, g + 1)
  {
    var rows := groups[g].rows;
    var symbol := Upper(groups[g].symbol);
    var minDate := MinDate(rows);
    var maxDate := MaxDate(rows);
    var request := (symbol, minDate - 1, maxDate + 1);
    assert request == RequestAt(groups, g);
    var d := env.download(g, request.0, request.1, request.2);
    assert d == DownloadAt(env, groups, g);
    plan := PlanFor(env, groups, g, d);
    PlanOfDownload(env, groups, g, d);
    requests' := requests + [request];
  }

  /** One turn of the `for symbol, group in jobs_by_symbol` loop: the download, then
      the group's commits. */
  method GroupTurn(db: Connection, env: Env, groups: seq<Group>, g: nat, ghost jobs0: JobTable, ghost prices0: PriceTable,
                   entries: seq<Entry>, requests: seq<(Symbol, Date, Date)>)
    returns (entries': seq<Entry>, stop: Option<Termination>, requests': seq<(Symbol, Date, Date)>)
    requires NonEmptyGroups(groups) && g < |groups| && requests == Requests(groups, g)
    requires GroupsFrom(groups, Plans(env, groups), env.halt, 0) == Then(entries, GroupsFrom(groups, Plans(env, groups), env.halt, g))
    requires db.Clean()
    requires db.jobs == ApplyAll(jobs0, entries) && db.prices == InsertAll(prices0, StoredRecords(entries))
    modifies db
    ensures requests' == Requests(groups, g + 1)
    ensures stop.None? ==>
      GroupsFrom(groups, Plans(env, groups), env.halt, 0) == Then(entries', GroupsFrom(groups, Plans(env, groups), env.halt, g + 1))
    ensures stop.Some? ==> GroupsFrom(groups, Plans(env, groups), env.halt, 0) == Trace(entries', stop)
    ensures db.Clean()
    ensures db.jobs == ApplyAll(jobs0, entries') && db.prices == InsertAll(prices0, StoredRecords(entries'))
  {
    var plan;
    plan, requests' := DownloadStep(env, groups, g, requests);
    entries', stop := GroupStep(db, groups, Plans(env, groups), plan, env.halt, g, jobs0, prices0, entries);
  }

  /** The `for symbol, group in jobs_by_symbol` loop. */
  method Process(db: Connection, env: Env, groups: seq<Group>)
    returns (trace: Trace, requests: seq<(Symbol, Date, Date)>, reached: nat)
    requires db.Clean() && NonEmptyGroups(groups)
    modifies db
    ensures trace == GroupsFrom(groups, Plans(env, groups), env.halt, 0)
    ensures reached <= |groups| && (trace.stop.None? ==> reached == |groups|)
    ensures requests == Requests(groups, reached)
    ensures db.Clean()
    ensures db.jobs == ApplyAll(old(db.jobs), trace.entries)
    ensures db.prices == InsertAll(old(db.prices), StoredRecords(trace.entries))
  {
    ghost var plans := Plans(env, groups);
    var entries: seq<Entry> := [];
    requests := [];
    reached := 0;
    var stop: Option<Termination> := None;
    assert GroupsFrom(groups, plans, env.halt, 0) == Then(entries, GroupsFrom(groups, plans, env.halt, reached));
    while reached < |groups| && stop.None?
      invariant reached <= |groups|
      invariant stop.None? ==> GroupsFrom(groups, plans, env.halt, 0) == Then(entries, GroupsFrom(groups, plans, env.halt, reached))
      invariant stop.Some? ==> GroupsFrom(groups, plans, env.halt, 0) == Trace(entries, stop)
      invariant requests == Requests(groups, reached)
      invariant db.Clean()
      invariant db.jobs == ApplyAll(old(db.jobs), entries)
      invariant db.prices == InsertAll(old(db.prices), StoredRecords(entries))
    {
      entries, stop, requests := GroupTurn(db, env, groups, reached, old(db.jobs), old(db.prices), entries, requests);
      reached := reached + 1;
    }
    assert stop.None? ==> entries + [] == entries;
    trace := Trace(entries, stop);
  }

  /** The whole run, from loading the candidates to closing the connection. */
  method Run(db: Connection, env: Env)
    returns (rows: seq<JobRow>, groups: seq<Group>, trace: Trace, requests: seq<(Symbol, Date, Date)>, reached: nat)
    requires db.Clean()
    modifies db
    ensures Ids(rows) == set id | id in old(db.jobs) && Matches(RecoveryCandidates, old(db.jobs)[id])
    ensures forall r :: r in rows ==> r.id in old(db.jobs) && r == RowOf(r.id, old(db.jobs)[r.id])
    ensures DistinctIds(rows) && Sorted(rows)
    ensures groups == GroupBy(rows) && NonEmptyGroups(groups)
    ensures trace == GroupsFrom(groups, Plans(env, groups), env.halt, 0)
    ensures reached <= |groups| && (trace.stop.None? ==> reached == |groups|)
    ensures requests == Requests(groups, reached)
    ensures db.Clean()
    ensures db.jobs == ApplyAll(old(db.jobs), trace.entries)
    ensures db.prices == InsertAll(old(db.prices), StoredRecords(trace.entries))
    ensures trace.stop.None? ==> EntryIds(trace.entries) == Ids(rows) && DistinctEntries(trace.entries)
  {
    rows := Select(db.jobs, RecoveryCandidates);
    groups := GroupBy(rows);
    GroupByRows(rows);
    if rows == [] {
      // "No pending jobs — nothing to do": the script exits before the loop
      return rows, groups, Trace([], None), [], 0;
    }
    trace, requests, reached := Process(db, env, groups);
    if trace.stop.None? {
      SortedRowsBySymbol(rows);
      GroupByFlatten(rows);
      CompletedCoversAll(groups, Plans(env, groups), env.halt);
      AllEntered(old(db.jobs), rows, trace.entries);
    }
  }

  /** The outcome of each job of a group whose frame has data, with its exact
      message: the missing date or column, the NaN volume, the INSERT's error; or
      the record with its prices rounded to four places, the volume truncated to an
      integer and the default dividend and split. */
  lemma JobOutcomes(env: Env, sym: Symbol, frame: Frame, row: JobRow, g: nat, j: nat)
    requires env.halt(g, j).None?
    ensures var v := Execute(JobPlan(env, sym, frame, row, g, j), env.halt(g, j));
      && v.Commits?
      && (row.tradeDate !in frame ==> v.outcome == FailedWith(NoDataMessage))
      && (row.tradeDate in frame && (exists c :: c in Columns && c !in frame[row.tradeDate]) ==>
            v.outcome == FailedWith(NoDataMessage))
      && (row.tradeDate in frame && (forall c :: c in Columns ==> c in frame[row.tradeDate]) ==>
            var data := frame[row.tradeDate];
            && (data[VolumeColumn].NaN? ==> v.outcome == FailedWith(InsertErrorPrefix + NaNToIntegerMessage))
            && (data[VolumeColumn].Finite? && env.rejects(g, j).Some? ==>
                  v.outcome == FailedWith(InsertErrorPrefix + env.rejects(g, j).value))
            && (data[VolumeColumn].Finite? && env.rejects(g, j).None? ==>
                  && v.outcome.Succeeded?
                  && KeyOf(v.outcome.record) == (sym, row.tradeDate)
                  && v.outcome.record.open == Round(data[OpenColumn])
                  && v.outcome.record.high == Round(data[HighColumn])
                  && v.outcome.record.low == Round(data[LowColumn])
                  && v.outcome.record.close == Round(data[CloseColumn])
                  && v.outcome.record.adjustedClose == Round(data[AdjustedCloseColumn])
                  && v.outcome.record.volume == IntOf(data[VolumeColumn]).value
                  && v.outcome.record.dividendAmount == NoDividend
                  && v.outcome.record.splitCoefficient == NoSplit))
  {
  }

  /** A failed or empty download fails every job of the group with one message. */
  lemma GroupFailureMessage(env: Env, groups: seq<Group>, g: nat)
    requires g < |groups| && groups[g].rows != []
    ensures DownloadAt(env, groups, g).Raised? ==>
      GroupPlanAt(env, groups, g) == FailAll("yfinance error: " + DownloadAt(env, groups, g).reason)
    ensures DownloadAt(env, groups, g).Downloaded? && FrameEmpty(DownloadAt(env, groups, g).frame) ==>
      GroupPlanAt(env, groups, g) == FailAll(EmptyFrameMessage)
    ensures DownloadAt(env, groups, g).Downloaded? && !FrameEmpty(DownloadAt(env, groups, g).frame) ==>
      GroupPlanAt(env, groups, g).Each?
  {
  }

  /** After the jobs are applied, a job is a recovery candidate again exactly when its
      new message is one of the two the query selects: a job whose date is still
      missing is picked up by the next run, a SUCCESS job never again. */
  lemma Reselected(t: JobTable, es: seq<Entry>, k: nat)
    requires k < |es| && DistinctEntries(es) && es[k].id in t
    ensures es[k].id in ApplyAll(t, es)
    ensures Matches(RecoveryCandidates, ApplyAll(t, es)[es[k].id]) <==>
      es[k].outcome == FailedWith(NoDataMessage) || es[k].outcome == FailedWith(ReadTimeoutMessage)
  {
    ApplyAllAt(t, es, k);
  }
}
