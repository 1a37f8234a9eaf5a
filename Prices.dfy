/** The canonical daily bar and the price table `stocks.daily_prices`, written
    with `INSERT ... ON CONFLICT (symbol, trade_date) DO NOTHING`. */
module Prices {
  import opened Wrappers

  /** A ticker as stored in the tables. */
  type Symbol = string

  /** A calendar date, as a day number (1970-01-01 is day 0). Formatting a date
      with `isoformat()` is injective, so series keyed by ISO strings are keyed
      by `Date` here. */
  type Date = int

  /** Prices are kept to four decimals: one tick is 0.0001. */
  const TicksPerUnit: int := 10000

  /** Python's `round(x, 4)`, half to even, giving the number of ticks. */
  function Round4(x: real): (n: int)
    ensures -(1.0 / 2.0) <= x * 10000.0 - n as real <= 1.0 / 2.0
  {
    var y := x * 10000.0;
    var f := y.Floor;
    var frac := y - f as real;
    if frac < 1.0 / 2.0 then f
    else if frac > 1.0 / 2.0 then f + 1
    else if f % 2 == 0 then f else f + 1
  }

  /** A value that already has at most four decimals is left as it is. */
  lemma Round4Exact(n: int)
    ensures Round4(n as real / 10000.0) == n
  {
    assert (n as real / 10000.0) * 10000.0 == n as real;
  }

  /** A tie, exactly half a tick above `k` ticks, is rounded to the even neighbour. */
  lemma Round4TieToEven(x: real, k: int)
    requires x * 10000.0 == k as real + 1.0 / 2.0
    ensures Round4(x) == if k % 2 == 0 then k else k + 1
  {
    assert (x * 10000.0).Floor == k;
  }

  /** Two ties: 0.00005 becomes 0.0000, 0.00015 becomes 0.0002. */
  lemma Round4HalfToEven()
    ensures Round4(0.00005) == 0 && Round4(0.00015) == 2
  {
    assert (0.00005 * 10000.0).Floor == 0;
    assert (0.00015 * 10000.0).Floor == 1;
  }

  /** 123.456789 becomes 123.4568 and 150.1234 stays 150.1234. */
  lemma Round4Examples()
    ensures Round4(123.456789) == 1234568
    ensures Round4(150.1234) == 1501234
  {
    assert (123.456789 * 10000.0).Floor == 1234567;
    Round4Exact(1501234);
    assert 1501234 as real / 10000.0 == 150.1234;
  }

  /** A four-decimal value stored in a numeric column; `round(nan, 4)` keeps NaN. */
  datatype Quote = Fixed(ticks: int) | NotANumber

  /** A Python float as the scripts meet it: a finite value or NaN (a missing value
      in a data frame). Infinities are not modelled. */
  datatype Float = Finite(value: real) | NaN

  /** `round(x, 4)` on a float. */
  function Round(f: Float): (q: Quote)
    ensures f.NaN? <==> q.NotANumber?
    ensures f.Finite? ==> -(1.0 / 2.0) <= f.value * 10000.0 - q.ticks as real <= 1.0 / 2.0
  {
    match f
    case Finite(x) => Fixed(Round4(x))
    case NaN => NotANumber
  }

  /** Python truthiness of a float, as `x or default` tests it: only zero is false, NaN is true. */
  predicate Truthy(f: Float)
  {
    !(f.Finite? && f.value == 0.0)
  }

  /** `int(x)` on a float: truncation toward zero, or the ValueError that NaN raises. */
  function IntOf(f: Float): (r: Result<int>)
    ensures f.NaN? <==> r.Err?
    ensures r.Err? ==> r.error == NaNToIntegerMessage
    ensures r.Ok? ==> -1.0 < f.value - r.value as real < 1.0
    ensures r.Ok? && f.value >= 0.0 ==> 0.0 <= r.value as real <= f.value
    ensures r.Ok? && f.value <= 0.0 ==> f.value <= r.value as real <= 0.0
  {
    match f
    case NaN => Err(NaNToIntegerMessage)
    case Finite(x) => Ok(if x >= 0.0 then x.Floor else -((-x).Floor))
  }

  const NaNToIntegerMessage: string := "cannot convert float NaN to integer"

  /** The defaults used when the provider gives no dividend or split: 0.0 and 1.0. */
  const NoDividend: Quote := Fixed(0)
  const NoSplit: Quote := Fixed(TicksPerUnit)

  datatype Record = Record(
    symbol: Symbol,
    tradeDate: Date,
    open: Quote,
    high: Quote,
    low: Quote,
    close: Quote,
    adjustedClose: Quote,
    volume: int,
    dividendAmount: Quote,
    splitCoefficient: Quote)

  /** The table's unique key `(symbol, trade_date)`. */
  type PriceKey = (Symbol, Date)

  function KeyOf(r: Record): PriceKey { (r.symbol, r.tradeDate) }

  /** Every stored row sits under its own key: at most one row per `(symbol, trade_date)`. */
  type PriceTable = map<PriceKey, Record>

  ghost predicate WellKeyed(t: PriceTable)
  {
    forall k :: k in t ==> KeyOf(t[k]) == k
  }

  /** `INSERT ... ON CONFLICT (symbol, trade_date) DO NOTHING`: the row is added
      when its key is free; a row already stored under the key is kept as it was. */
  function Insert(t: PriceTable, r: Record): (t': PriceTable)
    ensures t'.Keys == t.Keys + {KeyOf(r)}
    ensures forall k :: k in t ==> t'[k] == t[k]
    ensures KeyOf(r) !in t ==> t'[KeyOf(r)] == r
    ensures WellKeyed(t) ==> WellKeyed(t')
  {
    if KeyOf(r) in t then t else t[KeyOf(r) := r]
  }

  /** Whether the insert added a row (`inserted`) or found one (`already_existed`). */
  function Inserted(t: PriceTable, r: Record): bool { KeyOf(r) !in t }

  /** Inserting the same record twice leaves one row; the second call adds nothing. */
  lemma InsertIdempotent(t: PriceTable, r: Record)
    ensures Insert(Insert(t, r), r) == Insert(t, r)
    ensures !Inserted(Insert(t, r), r)
  {
  }

  /** A sequence of inserts, in order. */
  function InsertAll(t: PriceTable, rs: seq<Record>): PriceTable
    decreases |rs|
  {
    if rs == [] then t else InsertAll(Insert(t, rs[0]), rs[1..])
  }

  function Keys(rs: seq<Record>): set<PriceKey>
  {
    set i | 0 <= i < |rs| :: KeyOf(rs[i])
  }

  /** The keys of a batch are its first record's key and the keys of the rest. */
  lemma KeysCons(rs: seq<Record>)
    requires rs != []
    ensures Keys(rs) == {KeyOf(rs[0])} + Keys(rs[1..])
  {
    forall k | k in Keys(rs) ensures k in {KeyOf(rs[0])} + Keys(rs[1..]) {
      var i :| 0 <= i < |rs| && KeyOf(rs[i]) == k;
      if i > 0 { assert KeyOf(rs[1..][i - 1]) == k; }
    }
    forall k | k in Keys(rs[1..]) ensures k in Keys(rs) {
      var i :| 0 <= i < |rs[1..]| && KeyOf(rs[1..][i]) == k;
      assert KeyOf(rs[i + 1]) == k;
    }
  }

  /** The rows of a batch of inserts: the old rows untouched, one row per new key. */
  lemma {:induction false} InsertAllShape(t: PriceTable, rs: seq<Record>)
    ensures InsertAll(t, rs).Keys == t.Keys + Keys(rs)
    ensures forall k :: k in t ==> InsertAll(t, rs)[k] == t[k]
    ensures WellKeyed(t) ==> WellKeyed(InsertAll(t, rs))
    decreases |rs|
  {
    if rs != [] {
      var u := Insert(t, rs[0]);
      InsertAllShape(u, rs[1..]);
      KeysCons(rs);
      assert InsertAll(t, rs) == InsertAll(u, rs[1..]);
    }
  }

  /** For a key that was free, the stored row is the FIRST record of the batch with that key. */
  lemma {:induction false} InsertAllFirstWins(t: PriceTable, rs: seq<Record>, i: nat)
    requires i < |rs| && KeyOf(rs[i]) !in t
    requires forall j :: 0 <= j < i ==> KeyOf(rs[j]) != KeyOf(rs[i])
    ensures KeyOf(rs[i]) in InsertAll(t, rs) && InsertAll(t, rs)[KeyOf(rs[i])] == rs[i]
    decreases |rs|
  {
    if i == 0 {
      InsertAllShape(Insert(t, rs[0]), rs[1..]);
    } else {
      InsertAllFirstWins(Insert(t, rs[0]), rs[1..], i - 1);
    }
  }

  /** Replaying a batch of inserts changes nothing: the table is idempotent. */
  lemma InsertAllIdempotent(t: PriceTable, rs: seq<Record>)
    ensures InsertAll(InsertAll(t, rs), rs) == InsertAll(t, rs)
  {
    var u := InsertAll(t, rs);
    InsertAllShape(t, rs);
    InsertAllNoOp(u, rs);
  }

  /** A batch whose every key is already present changes nothing. */
  lemma {:induction false} InsertAllNoOp(t: PriceTable, rs: seq<Record>)
    requires Keys(rs) <= t.Keys
    ensures InsertAll(t, rs) == t
    decreases |rs|
  {
    if rs != [] {
      assert KeyOf(rs[0]) in Keys(rs);
      assert Keys(rs[1..]) <= Keys(rs) by {
        forall k | k in Keys(rs[1..]) ensures k in Keys(rs) {
          var i :| 0 <= i < |rs[1..]| && KeyOf(rs[1..][i]) == k;
          assert KeyOf(rs[i + 1]) == k;
        }
      }
      InsertAllNoOp(t, rs[1..]);
    }
  }

  /** Appending one insert at the end of a batch. */
  lemma {:induction false} InsertAllSnoc(t: PriceTable, rs: seq<Record>, r: Record)
    ensures InsertAll(t, rs + [r]) == Insert(InsertAll(t, rs), r)
    decreases |rs|
  {
    if rs == [] {
      assert rs + [r] == [r];
    } else {
      assert (rs + [r])[1..] == rs[1..] + [r];
      InsertAllSnoc(Insert(t, rs[0]), rs[1..], r);
    }
  }

  /** Two batches one after the other are one batch. */
  lemma {:induction false} InsertAllAppend(t: PriceTable, rs: seq<Record>, more: seq<Record>)
    ensures InsertAll(t, rs + more) == InsertAll(InsertAll(t, rs), more)
    decreases |rs|
  {
    if rs == [] {
      assert rs + more == more;
    } else {
      assert (rs + more)[1..] == rs[1..] + more;
      InsertAllAppend(Insert(t, rs[0]), rs[1..], more);
    }
  }
}
