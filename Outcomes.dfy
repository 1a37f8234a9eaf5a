/** What one job's transaction leaves behind, and how a run ends. Shared by the
    three loops that write to the database. */
module Outcomes {
  import opened Wrappers
  import opened Prices
  import opened Jobs
  import opened Database

  /** A job's terminal outcome: the record inserted with SUCCESS, or FAILED with a message. */
  datatype Outcome = Succeeded(record: Record) | FailedWith(message: string)

  /** One committed job. */
  datatype Entry = Entry(id: JobId, outcome: Outcome)

  /** An interruption of the run: Ctrl+C, a lost connection, or any other exception
      raised while a job's transaction is open (for instance by `mark_job`). */
  datatype Abort = Interrupt | ConnectionLost | Unexpected(reason: string)

  /** What the per-job code decides: commit an outcome, crash on an uncaught
      exception (the single-day script's record building), or stop on an abort. */
  datatype Verdict = Commits(outcome: Outcome) | Crashes(message: string) | Halts(abort: Abort)

  /** How a run ends. */
  datatype Termination = Completed | Stopped(abort: Abort) | Crashed(message: string)

  /** The clock readings a rate-limited loop takes: once at the start, and before
      and after the throttle pause of the n-th fetch. */
  datatype ClockRead = Start | BeforeFetch(n: nat) | AfterPause(n: nat)

  const InsertErrorPrefix: string := "Insert error: "
  const ApiErrorPrefix: string := "API error: "

  function StatusOf(o: Outcome): (s: Status)
    ensures s != Pending
    ensures s == Success <==> o.Succeeded?
  {
    if o.Succeeded? then Success else Failed
  }

  function ErrorOf(o: Outcome): (e: Option<string>)
    ensures e.None? <==> o.Succeeded?
    ensures o.FailedWith? ==> e == Some(o.message)
  {
    if o.Succeeded? then None else Some(o.message)
  }

  /** The job table after the entries, in order. */
  function ApplyAll(t: JobTable, es: seq<Entry>): JobTable
    decreases |es|
  {
    if es == [] then t
    else
      var e := es[|es| - 1];
      Marked(ApplyAll(t, es[..|es| - 1]), e.id, StatusOf(e.outcome), ErrorOf(e.outcome))
  }

  /** The records the entries inserted, in order. */
  function StoredRecords(es: seq<Entry>): seq<Record>
    decreases |es|
  {
    if es == [] then []
    else
      var e := es[|es| - 1];
      StoredRecords(es[..|es| - 1]) + (if e.outcome.Succeeded? then [e.outcome.record] else [])
  }

  function EntryIds(es: seq<Entry>): set<JobId>
  {
    set i | 0 <= i < |es| :: es[i].id
  }

  predicate DistinctEntries(es: seq<Entry>)
  {
    forall i, j :: 0 <= i < j < |es| ==> es[i].id != es[j].id
  }

  /** Appending one entry: the table gets that job's status, the price table its record. */
  lemma ApplySnoc(t: JobTable, p: PriceTable, es: seq<Entry>, e: Entry)
    ensures ApplyAll(t, es + [e]) == Marked(ApplyAll(t, es), e.id, StatusOf(e.outcome), ErrorOf(e.outcome))
    ensures InsertAll(p, StoredRecords(es + [e])) ==
      if e.outcome.Succeeded? then Insert(InsertAll(p, StoredRecords(es)), e.outcome.record) else InsertAll(p, StoredRecords(es))
  {
    assert (es + [e])[..|es|] == es;
    if e.outcome.Succeeded? {
      InsertAllSnoc(p, StoredRecords(es), e.outcome.record);
    } else {
      assert StoredRecords(es + [e]) == StoredRecords(es) + [];
      assert StoredRecords(es) + [] == StoredRecords(es);
    }
  }

  /** Appending a run of entries. */
  lemma {:induction false} ApplyAppend(t: JobTable, p: PriceTable, es: seq<Entry>, more: seq<Entry>)
    ensures ApplyAll(t, es + more) == ApplyAll(ApplyAll(t, es), more)
    ensures StoredRecords(es + more) == StoredRecords(es) + StoredRecords(more)
    decreases |more|
  {
    if more == [] {
      assert es + more == es;
    } else {
      var last := more[|more| - 1];
      var front := more[..|more| - 1];
      ApplyAppend(t, p, es, front);
      assert (es + more)[..|es + more| - 1] == es + front;
      assert (es + more)[|es + more| - 1] == last;
    }
  }

  /** Every job id of the entries keeps its row, and the others are untouched. */
  lemma {:induction false} ApplyAllKeys(t: JobTable, es: seq<Entry>)
    ensures ApplyAll(t, es).Keys == t.Keys
    ensures forall id :: id in t && id !in EntryIds(es) ==> ApplyAll(t, es)[id] == t[id]
    decreases |es|
  {
    if es != [] {
      var front := es[..|es| - 1];
      ApplyAllKeys(t, front);
      assert EntryIds(es) == EntryIds(front) + {es[|es| - 1].id} by {
        forall x | x in EntryIds(es) ensures x in EntryIds(front) + {es[|es| - 1].id} {
          var i :| 0 <= i < |es| && es[i].id == x;
          if i < |es| - 1 { assert front[i].id == x; }
        }
        forall x | x in EntryIds(front) ensures x in EntryIds(es) {
          var i :| 0 <= i < |front| && front[i].id == x;
          assert es[i].id == x;
        }
      }
    }
  }

  /** Every job ends with exactly the status and message of its (single) entry. */
  lemma {:induction false} ApplyAllAt(t: JobTable, es: seq<Entry>, k: nat)
    requires k < |es| && DistinctEntries(es) && es[k].id in t
    ensures es[k].id in ApplyAll(t, es)
    ensures ApplyAll(t, es)[es[k].id] ==
      Job(t[es[k].id].symbol, t[es[k].id].tradeDate, StatusOf(es[k].outcome), ErrorOf(es[k].outcome))
    decreases |es|
  {
    var front := es[..|es| - 1];
    ApplyAllKeys(t, front);
    if k < |es| - 1 {
      assert DistinctEntries(front);
      ApplyAllAt(t, front, k);
      assert es[|es| - 1].id != es[k].id;
    } else {
      assert es[k].id !in EntryIds(front);
    }
  }

  /** No job that has an entry is left PENDING. */
  lemma EntriesTerminal(t: JobTable, es: seq<Entry>)
    requires DistinctEntries(es) && EntryIds(es) <= t.Keys
    ensures forall id :: id in EntryIds(es) ==> id in ApplyAll(t, es) && ApplyAll(t, es)[id].status != Pending
  {
    forall id | id in EntryIds(es) ensures id in ApplyAll(t, es) && ApplyAll(t, es)[id].status != Pending {
      var k :| 0 <= k < |es| && es[k].id == id;
      ApplyAllAt(t, es, k);
    }
  }

  /** A batch whose every job has an entry leaves none of them PENDING. */
  lemma AllEntered(t: JobTable, rows: seq<JobRow>, entries: seq<Entry>)
    requires |entries| == |rows| && DistinctIds(rows)
    requires forall k :: 0 <= k < |rows| ==> entries[k].id == rows[k].id
    requires forall r :: r in rows ==> r.id in t
    ensures EntryIds(entries) == Ids(rows) && DistinctEntries(entries)
    ensures forall id :: id in Ids(rows) ==> id in ApplyAll(t, entries) && ApplyAll(t, entries)[id].status != Pending
  {
    assert EntryIds(entries) == Ids(rows) by {
      forall id | id in Ids(rows) ensures id in EntryIds(entries) {
        var k :| 0 <= k < |rows| && rows[k].id == id;
        assert entries[k].id == id;
      }
    }
    assert DistinctEntries(entries);
    EntriesTerminal(t, entries);
  }

  /** An outcome is committed unless an abort arrives before the commit. */
  function Commit(halt: Option<Abort>, o: Outcome): Verdict
  {
    if halt.Some? then Halts(halt.value) else Commits(o)
  }

  /** The termination a verdict that does not commit brings about. */
  function Ending(v: Verdict): (t: Termination)
    ensures t == Completed <==> v.Commits?
  {
    match v
    case Commits(_) => Completed
    case Crashes(m) => Crashed(m)
    case Halts(a) => Stopped(a)
  }

  /** The records a batch of entries stores are those of its SUCCESS entries. */
  lemma {:induction false} StoredRecordsOf(es: seq<Entry>)
    ensures forall r :: r in StoredRecords(es) <==> exists i :: 0 <= i < |es| && es[i].outcome == Succeeded(r)
    decreases |es|
  {
    if es != [] {
      var front := es[..|es| - 1];
      StoredRecordsOf(front);
      forall r ensures r in StoredRecords(es) <==> exists i :: 0 <= i < |es| && es[i].outcome == Succeeded(r) {
        if r in StoredRecords(front) {
          var i :| 0 <= i < |front| && front[i].outcome == Succeeded(r);
          assert es[i].outcome == Succeeded(r);
        }
        if exists i :: 0 <= i < |es| && es[i].outcome == Succeeded(r) {
          var i :| 0 <= i < |es| && es[i].outcome == Succeeded(r);
          if i < |es| - 1 { assert front[i].outcome == Succeeded(r); }
        }
      }
    }
  }

  /** `mark_job(cur, id, "FAILED", msg)` then `PG_CONN.commit()`; an abort before the
      commit leaves what was committed before. */
  method FailJob(db: Connection, id: JobId, msg: string, halt: Option<Abort>) returns (v: Verdict)
    requires db.Clean()
    modifies db
    ensures v == Commit(halt, FailedWith(msg))
    ensures db.Clean()
    ensures v.Commits? ==> db.jobs == Marked(old(db.jobs), id, Failed, Some(msg)) && db.prices == old(db.prices)
    ensures v.Halts? ==> db.jobs == old(db.jobs) && db.prices == old(db.prices)
  {
    db.MarkJob(id, Failed, Some(msg));
    if halt.Some? {
      db.Rollback();
      return Halts(halt.value);
    }
    db.Commit();
    v := Commits(FailedWith(msg));
  }

  /** The insert path: `cur.execute(INSERT_PRICE_SQL, row)`, `mark_job(..., "SUCCESS")`,
      commit; when the insert raises, rollback, mark FAILED with `"Insert error: " + e`,
      commit. Either both the row and the SUCCESS status are committed, or neither. */
  method StoreJob(db: Connection, id: JobId, r: Record, rejection: Option<string>, halt: Option<Abort>)
    returns (v: Verdict)
    requires db.Clean()
    modifies db
    ensures v == Commit(halt, if rejection.None? then Succeeded(r) else FailedWith(InsertErrorPrefix + rejection.value))
    ensures db.Clean()
    ensures v == Commits(Succeeded(r)) ==>
      db.jobs == Marked(old(db.jobs), id, Success, None) && db.prices == Insert(old(db.prices), r)
    ensures v.Commits? && v.outcome.FailedWith? ==>
      db.jobs == Marked(old(db.jobs), id, Failed, Some(v.outcome.message)) && db.prices == old(db.prices)
    ensures v.Halts? ==> db.jobs == old(db.jobs) && db.prices == old(db.prices)
  {
    var error := db.InsertPrice(r, rejection);
    if error.None? {
      db.MarkJob(id, Success, None);
      if halt.Some? {
        db.Rollback();
        return Halts(halt.value);
      }
      db.Commit();
      return Commits(Succeeded(r));
    }
    db.Rollback();
    v := FailJob(db, id, InsertErrorPrefix + error.value, halt);
  }

  /** What the per-job code sets out to do before it touches the database: mark the
      job FAILED with a message, insert a record (which the database may reject with
      an error text), or crash on an exception no handler catches. */
  datatype Plan = Fail(message: string) | Store(record: Record, rejection: Option<string>) | Crash(reason: string)

  /** The verdict a plan comes to, given the abort (if any) that arrives before its commit. */
  function Execute(plan: Plan, halt: Option<Abort>): Verdict
  {
    match plan
    case Fail(m) => Commit(halt, FailedWith(m))
    case Store(r, rejection) => Commit(halt, if rejection.None? then Succeeded(r) else FailedWith(InsertErrorPrefix + rejection.value))
    case Crash(m) => Crashes(m)
  }

  /** A plan commits unless it crashes or an abort arrives; only a store that the
      database accepts commits SUCCESS, with the planned record; a rejected insert
      commits FAILED with `"Insert error: "` and the database's text. */
  lemma ExecuteOutcomes(plan: Plan, halt: Option<Abort>)
    ensures Execute(plan, halt).Crashes? <==> plan.Crash?
    ensures Execute(plan, halt).Halts? <==> !plan.Crash? && halt.Some?
    ensures Execute(plan, halt).Commits? && Execute(plan, halt).outcome.Succeeded? <==>
      plan.Store? && plan.rejection.None? && halt.None?
    ensures Execute(plan, halt) == Commits(Succeeded(plan.record)) <== plan.Store? && plan.rejection.None? && halt.None?
    ensures plan.Fail? && halt.None? ==> Execute(plan, halt) == Commits(FailedWith(plan.message))
    ensures plan.Store? && plan.rejection.Some? && halt.None? ==>
      Execute(plan, halt) == Commits(FailedWith(InsertErrorPrefix + plan.rejection.value))
  {
  }

  /** Carries a plan out on the connection. */
  method Perform(db: Connection, id: JobId, plan: Plan, halt: Option<Abort>) returns (v: Verdict)
    requires db.Clean()
    modifies db
    ensures v == Execute(plan, halt)
    ensures db.Clean()
    ensures v.Commits? ==> db.jobs == Marked(old(db.jobs), id, StatusOf(v.outcome), ErrorOf(v.outcome))
    ensures v.Commits? ==> db.prices == if v.outcome.Succeeded? then Insert(old(db.prices), v.outcome.record) else old(db.prices)
    ensures !v.Commits? ==> db.jobs == old(db.jobs) && db.prices == old(db.prices)
  {
    match plan {
      case Fail(m) => v := FailJob(db, id, m, halt);
      case Store(r, rejection) => v := StoreJob(db, id, r, rejection, halt);
      case Crash(m) => v := Crashes(m);
    }
  }

  /** Every job of a group FAILED with the same message. */
  function FailEntries(rows: seq<JobRow>, msg: string): (es: seq<Entry>)
    ensures |es| == |rows|
    ensures forall k :: 0 <= k < |rows| ==> es[k] == Entry(rows[k].id, FailedWith(msg))
    ensures StoredRecords(es) == []
    decreases |rows|
  {
    if rows == [] then []
    else
      var es := FailEntries(rows[..|rows| - 1], msg) + [Entry(rows[|rows| - 1].id, FailedWith(msg))];
      assert es[..|es| - 1] == FailEntries(rows[..|rows| - 1], msg);
      es
  }

  lemma FailEntriesSnoc(rows: seq<JobRow>, j: nat, msg: string)
    requires j < |rows|
    ensures FailEntries(rows[..j + 1], msg) == FailEntries(rows[..j], msg) + [Entry(rows[j].id, FailedWith(msg))]
  {
    var a := FailEntries(rows[..j + 1], msg);
    var b := FailEntries(rows[..j], msg) + [Entry(rows[j].id, FailedWith(msg))];
    assert |a| == |b|;
    forall k | 0 <= k < |a| ensures a[k] == b[k] {
      assert rows[..j + 1][k] == rows[k];
    }
  }

  /** A group-wide failure: `mark_job` for every job of the group, then one commit. */
  method FailGroup(db: Connection, rows: seq<JobRow>, msg: string, halt: Option<Abort>)
    returns (es: seq<Entry>, stop: Option<Termination>)
    requires db.Clean()
    modifies db
    ensures halt.None? ==> es == FailEntries(rows, msg) && stop.None?
    ensures halt.Some? ==> es == [] && stop == Some(Stopped(halt.value))
    ensures db.Clean()
    ensures db.jobs == ApplyAll(old(db.jobs), es) && db.prices == old(db.prices)
  {
    var j := 0;
    while j < |rows|
      invariant 0 <= j <= |rows|
      invariant db.jobs == ApplyAll(old(db.jobs), FailEntries(rows[..j], msg))
      invariant db.prices == old(db.prices)
      invariant db.committedJobs == old(db.committedJobs) && db.committedPrices == old(db.committedPrices)
    {
      FailEntriesSnoc(rows, j, msg);
      ApplySnoc(old(db.jobs), old(db.prices), FailEntries(rows[..j], msg), Entry(rows[j].id, FailedWith(msg)));
      db.MarkJob(rows[j].id, Failed, Some(msg));
      j := j + 1;
    }
    assert rows[..|rows|] == rows;
    if halt.Some? {
      db.Rollback();
      return [], Some(Stopped(halt.value));
    }
    db.Commit();
    es, stop := FailEntries(rows, msg), None;
  }
}
