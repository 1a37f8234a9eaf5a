/** The one database connection each script opens with `autocommit=False`:
    the job and price tables as the open transaction sees them, and as last committed. */
module Database {
  import opened Wrappers
  import opened Prices
  import opened Jobs

  /** `UPDATE pipelines.stocks_daily_jobs SET status, error_message WHERE job_id`:
      a job id that is not in the table matches no row. */
  function Marked(t: JobTable, id: JobId, status: Status, err: Option<string>): (t': JobTable)
    ensures t'.Keys == t.Keys
    ensures forall k :: k in t && k != id ==> t'[k] == t[k]
    ensures id in t ==> t'[id] == Job(t[id].symbol, t[id].tradeDate, status, err)
  {
    if id in t then t[id := t[id].(status := status, errorMessage := err)] else t
  }

  class Connection {
    /** What the open transaction sees. */
    var jobs: JobTable
    var prices: PriceTable
    /** What has been committed; a rollback, or closing the connection, returns to it. */
    var committedJobs: JobTable
    var committedPrices: PriceTable

    /** No uncommitted work. */
    predicate Clean()
      reads this
    {
      jobs == committedJobs && prices == committedPrices
    }

    constructor (jobs0: JobTable, prices0: PriceTable)
      ensures jobs == jobs0 && prices == prices0 && Clean()
    {
      jobs, prices := jobs0, prices0;
      committedJobs, committedPrices := jobs0, prices0;
    }

    /** `mark_job(cur, job_id, status, err)`. */
    method MarkJob(id: JobId, status: Status, err: Option<string>)
      modifies this
      ensures jobs == Marked(old(jobs), id, status, err)
      ensures prices == old(prices)
      ensures committedJobs == old(committedJobs) && committedPrices == old(committedPrices)
    {
      jobs := Marked(jobs, id, status, err);
    }

    /** `cur.execute(INSERT_PRICE_SQL, row)`. `rejection` is the database's answer:
        `None` when the statement runs, `Some(text)` when it raises with that text. */
    method InsertPrice(r: Record, rejection: Option<string>) returns (error: Option<string>)
      modifies this
      ensures error == rejection
      ensures prices == if rejection.None? then Insert(old(prices), r) else old(prices)
      ensures jobs == old(jobs)
      ensures committedJobs == old(committedJobs) && committedPrices == old(committedPrices)
    {
      error := rejection;
      if rejection.None? {
        prices := Insert(prices, r);
      }
    }

    /** `PG_CONN.commit()`. */
    method Commit()
      modifies this
      ensures jobs == old(jobs) && prices == old(prices) && Clean()
    {
      committedJobs, committedPrices := jobs, prices;
    }

    /** `PG_CONN.rollback()`: the uncommitted work is discarded. */
    method Rollback()
      modifies this
      ensures jobs == old(committedJobs) && prices == old(committedPrices) && Clean()
    {
      jobs, prices := committedJobs, committedPrices;
    }
  }
}
