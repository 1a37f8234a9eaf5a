/** The group-at-a-time loop shared by the several-days Alpha Vantage script and the
    yfinance recovery script: for each symbol group, either every job of the group is
    marked FAILED with one message under one commit, or each job is carried out and
    committed on its own. An abort ends the run at once. */
module GroupRuns {
  import opened Wrappers
  import opened Prices
  import opened Jobs
  import opened Database
  import opened Outcomes
  import opened Grouping

  /** What a script sets out to do with one group once its data is in hand. */
  datatype GroupPlan = FailAll(message: string) | Each(plans: seq<Plan>)

  /** The abort (if any) arriving while job `j` of group `g` has its transaction open;
      a group-wide failure has one transaction, exposed to the abort of its first job. */
  type Halts = (nat, nat) -> Option<Abort>

  /** The jobs committed, in order, and how the run stopped, if it did. */
  datatype Trace = Trace(entries: seq<Entry>, stop: Option<Termination>)

  function Then(es: seq<Entry>, t: Trace): Trace
  {
    Trace(es + t.entries, t.stop)
  }

  predicate Fits(plan: GroupPlan, rows: seq<JobRow>)
  {
    plan.Each? ==> |plan.plans| == |rows|
  }

  predicate AllFit(plans: seq<GroupPlan>, groups: seq<Group>)
  {
    |plans| == |groups| && forall g :: 0 <= g < |groups| ==> Fits(plans[g], groups[g].rows)
  }

  /** The process exit status of both grouped scripts: the interrupt, the lost
      connection and every unexpected exception end the script with 1. */
  function ExitCode(t: Termination): (code: int)
    ensures code == 0 <==> t == Completed
    ensures code == 0 || code == 1
  {
    if t == Completed then 0 else 1
  }

  /** Jobs `j`, `j + 1`, ... of group `g`, each plan carried out on its own: the
      committed jobs are a prefix of the rows, each with the verdict of its plan,
      and the run stops at the first plan that does not commit. */
  function JobsFrom(rows: seq<JobRow>, plans: seq<Plan>, halt: Halts, g: nat, j: nat): (t: Trace)
    requires j <= |rows| == |plans|
    ensures |t.entries| <= |rows| - j
    ensures t.stop.None? <==> |t.entries| == |rows| - j
    ensures forall k :: 0 <= k < |t.entries| ==>
      t.entries[k].id == rows[j + k].id && Execute(plans[j + k], halt(g, j + k)) == Commits(t.entries[k].outcome)
    ensures t.stop.Some? ==>
      t.stop.value == Ending(Execute(plans[j + |t.entries|], halt(g, j + |t.entries|))) && t.stop.value != Completed
    decreases |rows| - j
  {
    if j == |rows| then Trace([], None)
    else
      var v := Execute(plans[j], halt(g, j));
      if v.Commits? then Then([Entry(rows[j].id, v.outcome)], JobsFrom(rows, plans, halt, g, j + 1))
      else Trace([], Some(Ending(v)))
  }

  /** One group: the group-wide failure commits every job FAILED with its message, or
      nothing when an abort arrives before the commit; otherwise its jobs one by one. */
  function GroupRun(plan: GroupPlan, rows: seq<JobRow>, halt: Halts, g: nat): (t: Trace)
    requires Fits(plan, rows)
    ensures |t.entries| <= |rows|
    ensures t.stop.None? ==> |t.entries| == |rows|
    ensures forall k :: 0 <= k < |t.entries| ==> t.entries[k].id == rows[k].id
    ensures t.stop.Some? ==> t.stop.value != Completed
    ensures plan.FailAll? && halt(g, 0).None? ==>
      && t.stop.None?
      && (forall k :: 0 <= k < |rows| ==> t.entries[k] == Entry(rows[k].id, FailedWith(plan.message)))
    ensures plan.FailAll? && halt(g, 0).Some? ==> t == Trace([], Some(Stopped(halt(g, 0).value)))
  {
    match plan
    case FailAll(m) =>
      if halt(g, 0).Some? then Trace([], Some(Stopped(halt(g, 0).value))) else Trace(FailEntries(rows, m), None)
    case Each(plans) => JobsFrom(rows, plans, halt, g, 0)
  }

  /** The groups from the `g`-th on. */
  function GroupsFrom(groups: seq<Group>, plans: seq<GroupPlan>, halt: Halts, g: nat): (t: Trace)
    requires g <= |groups| && AllFit(plans, groups)
    ensures |t.entries| <= |Flatten(groups[g..])|
    ensures t.stop.None? ==> |t.entries| == |Flatten(groups[g..])|
    ensures forall k :: 0 <= k < |t.entries| ==> t.entries[k].id == Flatten(groups[g..])[k].id
    ensures t.stop.Some? ==> t.stop.value != Completed
    decreases |groups| - g
  {
    if g == |groups| then Trace([], None)
    else
      assert groups[g..] == [groups[g]] + groups[g + 1..];
      assert Flatten(groups[g..]) == groups[g].rows + Flatten(groups[g + 1..]);
      var t := GroupRun(plans[g], groups[g].rows, halt, g);
      if t.stop.Some? then t else Then(t.entries, GroupsFrom(groups, plans, halt, g + 1))
  }

  /** Every committed job is a job of some group, with the outcome its group's plan
      gives it: the group-wide message, or its own plan's outcome. */
  lemma {:induction false} GroupsFromOutcomes(groups: seq<Group>, plans: seq<GroupPlan>, halt: Halts, g: nat, e: Entry)
    requires g <= |groups| && AllFit(plans, groups)
    requires e in GroupsFrom(groups, plans, halt, g).entries
    ensures exists h, j ::
      && g <= h < |groups| && 0 <= j < |groups[h].rows| && groups[h].rows[j].id == e.id
      && (if plans[h].FailAll? then e.outcome == FailedWith(plans[h].message)
          else Execute(plans[h].plans[j], halt(h, j)) == Commits(e.outcome))
    decreases |groups| - g
  {
    var t := GroupRun(plans[g], groups[g].rows, halt, g);
    if e in t.entries {
      var k :| 0 <= k < |t.entries| && t.entries[k] == e;
      if plans[g].FailAll? {
        assert halt(g, 0).None?;
        assert t.entries[k] == Entry(groups[g].rows[k].id, FailedWith(plans[g].message));
      } else {
        assert t == JobsFrom(groups[g].rows, plans[g].plans, halt, g, 0);
      }
      assert groups[g].rows[k].id == e.id;
    } else {
      assert t.stop.None?;
      assert GroupsFrom(groups, plans, halt, g) == Then(t.entries, GroupsFrom(groups, plans, halt, g + 1));
      GroupsFromOutcomes(groups, plans, halt, g + 1, e);
    }
  }

  /** Unfolds one group of the run. */
  lemma GroupsFromStep(groups: seq<Group>, plans: seq<GroupPlan>, halt: Halts, g: nat)
    requires g < |groups| && AllFit(plans, groups)
    ensures var t := GroupRun(plans[g], groups[g].rows, halt, g);
      GroupsFrom(groups, plans, halt, g) == if t.stop.Some? then t else Then(t.entries, GroupsFrom(groups, plans, halt, g + 1))
  {
  }

  /** The run so far, extended by group `g`. */
  lemma GroupStepTrace(groups: seq<Group>, plans: seq<GroupPlan>, halt: Halts, g: nat, entries: seq<Entry>, t: Trace)
    requires g < |groups| && AllFit(plans, groups)
    requires GroupsFrom(groups, plans, halt, 0) == Then(entries, GroupsFrom(groups, plans, halt, g))
    requires t == GroupRun(plans[g], groups[g].rows, halt, g)
    ensures t.stop.None? ==> GroupsFrom(groups, plans, halt, 0) == Then(entries + t.entries, GroupsFrom(groups, plans, halt, g + 1))
    ensures t.stop.Some? ==> GroupsFrom(groups, plans, halt, 0) == Trace(entries + t.entries, t.stop)
  {
    GroupsFromStep(groups, plans, halt, g);
    if t.stop.None? {
      var rest := GroupsFrom(groups, plans, halt, g + 1);
      assert entries + (t.entries + rest.entries) == entries + t.entries + rest.entries;
    }
  }

  /** Steps one job forward. */
  lemma JobsFromStep(rows: seq<JobRow>, plans: seq<Plan>, halt: Halts, g: nat, j: nat, es: seq<Entry>, e: Entry)
    requires j < |rows| == |plans|
    requires JobsFrom(rows, plans, halt, g, 0) == Then(es, JobsFrom(rows, plans, halt, g, j))
    requires Execute(plans[j], halt(g, j)).Commits? && e == Entry(rows[j].id, Execute(plans[j], halt(g, j)).outcome)
    ensures JobsFrom(rows, plans, halt, g, 0) == Then(es + [e], JobsFrom(rows, plans, halt, g, j + 1))
  {
    assert es + ([e] + JobsFrom(rows, plans, halt, g, j + 1).entries) == es + [e] + JobsFrom(rows, plans, halt, g, j + 1).entries;
  }

  /** `for jid, dt in zip(job_ids, dates)`: each job's plan carried out and committed. */
  method RunJobs(db: Connection, rows: seq<JobRow>, plans: seq<Plan>, halt: Halts, g: nat) returns (t: Trace)
    requires |rows| == |plans| && db.Clean()
    modifies db
    ensures t == JobsFrom(rows, plans, halt, g, 0)
    ensures db.Clean()
    ensures db.jobs == ApplyAll(old(db.jobs), t.entries) && db.prices == InsertAll(old(db.prices), StoredRecords(t.entries))
  {
    var es: seq<Entry> := [];
    var j := 0;
    while j < |rows|
      invariant j <= |rows| && JobsFrom(rows, plans, halt, g, 0) == Then(es, JobsFrom(rows, plans, halt, g, j))
      invariant db.Clean()
      invariant db.jobs == ApplyAll(old(db.jobs), es) && db.prices == InsertAll(old(db.prices), StoredRecords(es))
    {
      var v := Perform(db, rows[j].id, plans[j], halt(g, j));
      if !v.Commits? {
        return Trace(es, Some(Ending(v)));
      }
      JobsFromStep(rows, plans, halt, g, j, es, Entry(rows[j].id, v.outcome));
      ApplySnoc(old(db.jobs), old(db.prices), es, Entry(rows[j].id, v.outcome));
      es := es + [Entry(rows[j].id, v.outcome)];
      j := j + 1;
    }
    assert es + [] == es;
    t := Trace(es, None);
  }

  /** One group carried out on the connection. */
  method RunGroup(db: Connection, rows: seq<JobRow>, plan: GroupPlan, halt: Halts, g: nat) returns (t: Trace)
    requires Fits(plan, rows) && db.Clean()
    modifies db
    ensures t == GroupRun(plan, rows, halt, g)
    ensures db.Clean()
    ensures db.jobs == ApplyAll(old(db.jobs), t.entries) && db.prices == InsertAll(old(db.prices), StoredRecords(t.entries))
  {
    match plan {
      case FailAll(m) =>
        var es, stop := FailGroup(db, rows, m, halt(g, 0));
        t := Trace(es, stop);
        assert StoredRecords(es) == [];
      case Each(plans) =>
        t := RunJobs(db, rows, plans, halt, g);
    }
  }

  /** Group `g` of the outer loop: the entries so far grow by the group's entries, or
      the run ends with them. */
  method GroupStep(db: Connection, groups: seq<Group>, ghost plans: seq<GroupPlan>, plan: GroupPlan, halt: Halts, g: nat,
                   ghost jobs0: JobTable, ghost prices0: PriceTable, entries: seq<Entry>)
    returns (entries': seq<Entry>, stop: Option<Termination>)
    requires g < |groups| && AllFit(plans, groups) && plan == plans[g]
    requires GroupsFrom(groups, plans, halt, 0) == Then(entries, GroupsFrom(groups, plans, halt, g))
    requires db.Clean()
    requires db.jobs == ApplyAll(jobs0, entries) && db.prices == InsertAll(prices0, StoredRecords(entries))
    modifies db
    ensures stop.None? ==> GroupsFrom(groups, plans, halt, 0) == Then(entries', GroupsFrom(groups, plans, halt, g + 1))
    ensures stop.Some? ==> GroupsFrom(groups, plans, halt, 0) == Trace(entries', stop)
    ensures db.Clean()
    ensures db.jobs == ApplyAll(jobs0, entries') && db.prices == InsertAll(prices0, StoredRecords(entries'))
  {
    var t := RunGroup(db, groups[g].rows, plan, halt, g);
    GroupStepTrace(groups, plans, halt, g, entries, t);
    ApplyAppend(jobs0, prices0, entries, t.entries);
    InsertAllAppend(prices0, StoredRecords(entries), StoredRecords(t.entries));
    entries', stop := entries + t.entries, t.stop;
  }

  /** A run that stops nowhere commits every job of every group, in group order. */
  lemma CompletedCoversAll(groups: seq<Group>, plans: seq<GroupPlan>, halt: Halts)
    requires AllFit(plans, groups) && GroupsFrom(groups, plans, halt, 0).stop.None?
    ensures var es := GroupsFrom(groups, plans, halt, 0).entries;
      |es| == |Flatten(groups)| && forall k :: 0 <= k < |es| ==> es[k].id == Flatten(groups)[k].id
  {
    assert groups[0..] == groups;
  }
}
