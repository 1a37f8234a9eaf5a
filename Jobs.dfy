/** The job table `pipelines.stocks_daily_jobs` and the queries that load a batch from it. */
module Jobs {
  import opened Wrappers
  import opened Text
  import opened Prices

  type JobId = int

  datatype Status = Pending | Success | Failed

  /** One row of the job table. `last_attempted` is not modelled. */
  datatype Job = Job(symbol: Symbol, tradeDate: Date, status: Status, errorMessage: Option<string>)

  type JobTable = map<JobId, Job>

  /** The columns a batch query returns: `job_id, symbol, trade_date`. */
  datatype JobRow = JobRow(id: JobId, symbol: Symbol, tradeDate: Date)

  /** The message a job gets when its date is missing from the fetched series. */
  const NoDataMessage: string := "No data for trade_date (market closed?)"

  /** The message the primary provider's read timeout leaves on a job. */
  const ReadTimeoutMessage: string :=
    "API error: HTTPSConnectionPool(host='www.alphavantage.co', port=443): Read timed out. (read timeout=30)"

  /** The WHERE clauses of the batch queries. */
  datatype Query =
    | PendingOn(date: Date)   // trade_date = date AND status = 'PENDING'
    | RecoveryCandidates      // status = 'FAILED' AND error_message is one of two exact texts

  predicate Matches(q: Query, j: Job)
  {
    match q
    case PendingOn(d) => j.tradeDate == d && j.status == Pending
    case RecoveryCandidates =>
      j.status == Failed && (j.errorMessage == Some(NoDataMessage) || j.errorMessage == Some(ReadTimeoutMessage))
  }

  function RowOf(id: JobId, j: Job): JobRow { JobRow(id, j.symbol, j.tradeDate) }

  /** `ORDER BY symbol, trade_date`. */
  predicate RowLe(a: JobRow, b: JobRow)
  {
    LexLt(a.symbol, b.symbol) || (a.symbol == b.symbol && a.tradeDate <= b.tradeDate)
  }

  predicate Sorted(rows: seq<JobRow>)
  {
    forall i, j :: 0 <= i < j < |rows| ==> RowLe(rows[i], rows[j])
  }

  predicate DistinctIds(rows: seq<JobRow>)
  {
    forall i, j :: 0 <= i < j < |rows| ==> rows[i].id != rows[j].id
  }

  function Ids(rows: seq<JobRow>): set<JobId>
  {
    set i | 0 <= i < |rows| :: rows[i].id
  }

  lemma RowLeTotal(a: JobRow, b: JobRow)
    ensures RowLe(a, b) || RowLe(b, a)
  {
    LexLeTotal(a.symbol, b.symbol);
  }

  lemma RowLeTransitive(a: JobRow, b: JobRow, c: JobRow)
    requires RowLe(a, b) && RowLe(b, c)
    ensures RowLe(a, c)
  {
    if LexLt(a.symbol, b.symbol) && LexLt(b.symbol, c.symbol) {
      LexLeTransitive(a.symbol, b.symbol, c.symbol);
      if a.symbol == c.symbol { LexLeAntisymmetric(a.symbol, b.symbol); }
    }
  }

  /** Where a new row goes: before the first row it does not exceed. */
  function Position(rows: seq<JobRow>, r: JobRow): (k: nat)
    ensures k <= |rows|
    ensures forall i :: 0 <= i < k ==> !RowLe(r, rows[i])
    ensures k < |rows| ==> RowLe(r, rows[k])
  {
    if rows == [] || RowLe(r, rows[0]) then 0 else 1 + Position(rows[1..], r)
  }

  /** Inserting a row into sorted rows at its place. */
  function InsertRow(rows: seq<JobRow>, r: JobRow): seq<JobRow>
  {
    rows[..Position(rows, r)] + [r] + rows[Position(rows, r)..]
  }

  /** Where each element of the inserted sequence comes from. */
  lemma InsertRowAt(rows: seq<JobRow>, r: JobRow)
    ensures |InsertRow(rows, r)| == |rows| + 1
    ensures forall i :: 0 <= i < |rows| + 1 ==>
      (InsertRow(rows, r)[i] == if i < Position(rows, r) then rows[i] else if i == Position(rows, r) then r else rows[i - 1])
  {
  }

  /** The insertion keeps the rows sorted. */
  lemma InsertRowSorted(rows: seq<JobRow>, r: JobRow)
    requires Sorted(rows)
    ensures Sorted(InsertRow(rows, r))
  {
    var k := Position(rows, r);
    var s := InsertRow(rows, r);
    InsertRowAt(rows, r);
    forall i, j | 0 <= i < j < |s| ensures RowLe(s[i], s[j]) {
      if j == k {
        RowLeTotal(r, rows[i]);
      } else if i == k && j - 1 > k {
        RowLeTransitive(r, rows[k], rows[j - 1]);
      }
    }
  }

  /** The insertion adds the new row and nothing else. */
  lemma InsertRowMembers(rows: seq<JobRow>, r: JobRow)
    ensures forall x :: x in InsertRow(rows, r) <==> x in rows || x == r
  {
    var k := Position(rows, r);
    assert rows == rows[..k] + rows[k..];
  }

  lemma InsertRowIds(rows: seq<JobRow>, r: JobRow)
    ensures Ids(InsertRow(rows, r)) == Ids(rows) + {r.id}
  {
    var k := Position(rows, r);
    var s := InsertRow(rows, r);
    InsertRowAt(rows, r);
    forall x | x in Ids(s) ensures x in Ids(rows) + {r.id} {
      var i :| 0 <= i < |s| && s[i].id == x;
      if i > k { assert rows[i - 1].id == x; } else if i < k { assert rows[i].id == x; }
    }
    forall x | x in Ids(rows) ensures x in Ids(s) {
      var i :| 0 <= i < |rows| && rows[i].id == x;
      if i < k { assert s[i].id == x; } else { assert s[i + 1].id == x; }
    }
    assert s[k].id == r.id;
  }

  /** A row with a new id keeps the ids distinct. */
  lemma InsertRowDistinct(rows: seq<JobRow>, r: JobRow)
    requires DistinctIds(rows) && r.id !in Ids(rows)
    ensures DistinctIds(InsertRow(rows, r))
  {
    var k := Position(rows, r);
    var s := InsertRow(rows, r);
    InsertRowAt(rows, r);
    forall i, j | 0 <= i < j < |s| ensures s[i].id != s[j].id {
      if i == k { assert rows[j - 1].id in Ids(rows); }
      else if j == k { assert rows[i].id in Ids(rows); }
      else if i < k && j > k { assert s[i] == rows[i] && s[j] == rows[j - 1]; }
      else if i > k { assert s[i] == rows[i - 1] && s[j] == rows[j - 1]; }
    }
  }

  /** Some element of a non-empty set of ids. */
  lemma SomeId(s: set<JobId>) returns (x: JobId)
    requires s != {}
    ensures x in s
  {
    if forall y :: y !in s { assert false; }
    x :| x in s;
  }

  /** `SELECT job_id, symbol, trade_date FROM pipelines.stocks_daily_jobs WHERE q
      ORDER BY symbol, trade_date`: every matching job once, and nothing else, in order. */
  method Select(table: JobTable, q: Query) returns (rows: seq<JobRow>)
    ensures forall r :: r in rows ==> r.id in table && Matches(q, table[r.id]) && r == RowOf(r.id, table[r.id])
    ensures Ids(rows) == set id | id in table && Matches(q, table[id])
    ensures DistinctIds(rows)
    ensures Sorted(rows)
  {
    rows := [];
    var rest := table.Keys;
    while rest != {}
      invariant rest <= table.Keys
      invariant forall r :: r in rows ==>
        r.id in table && r.id !in rest && Matches(q, table[r.id]) && r == RowOf(r.id, table[r.id])
      invariant Ids(rows) == set id | id in table && id !in rest && Matches(q, table[id])
      invariant DistinctIds(rows)
      invariant Sorted(rows)
      decreases rest
    {
      ghost var picked := SomeId(rest);
      var key :| key in rest;
      if Matches(q, table[key]) {
        var r := RowOf(key, table[key]);
        InsertRowSorted(rows, r);
        InsertRowMembers(rows, r);
        InsertRowIds(rows, r);
        InsertRowDistinct(rows, r);
        rows := InsertRow(rows, r);
      }
      rest := rest - {key};
    }
  }
}
