/** `jobs_df.groupby("symbol")`: one group per distinct symbol, groups in
    ascending symbol order, each group's rows in their original order. */
module Grouping {
  import opened Text
  import opened Prices
  import opened Jobs

  datatype Group = Group(symbol: Symbol, rows: seq<JobRow>)

  function Symbols(rows: seq<JobRow>): set<Symbol>
  {
    set x | x in rows :: x.symbol
  }

  /** The rows with symbol `k`, in order. */
  function WithSymbol(rows: seq<JobRow>, k: Symbol): (r: seq<JobRow>)
    ensures forall x :: x in r <==> x in rows && x.symbol == k
  {
    if rows == [] then []
    else (if rows[0].symbol == k then [rows[0]] else []) + WithSymbol(rows[1..], k)
  }

  /** The rows with any other symbol, in order. */
  function WithoutSymbol(rows: seq<JobRow>, k: Symbol): (r: seq<JobRow>)
    ensures forall x :: x in r <==> x in rows && x.symbol != k
    ensures |r| <= |rows|
    ensures k in Symbols(rows) ==> |r| < |rows|
  {
    if rows == [] then []
    else
      var tail := WithoutSymbol(rows[1..], k);
      assert k in Symbols(rows) && rows[0].symbol != k ==> k in Symbols(rows[1..]) by {
        if k in Symbols(rows) && rows[0].symbol != k {
          var x :| x in rows && x.symbol == k;
          assert x in rows[1..];
        }
      }
      (if rows[0].symbol != k then [rows[0]] else []) + tail
  }

  /** The smallest symbol among the rows. */
  function MinSymbol(rows: seq<JobRow>): (m: Symbol)
    requires rows != []
    ensures m in Symbols(rows)
    ensures forall x :: x in rows ==> LexLe(m, x.symbol)
  {
    if |rows| == 1 then
      LexLeReflexive(rows[0].symbol);
      rows[0].symbol
    else
      var m := MinSymbol(rows[1..]);
      assert forall x :: x in rows ==> x == rows[0] || x in rows[1..];
      if LexLe(rows[0].symbol, m) then
        assert forall x :: x in rows[1..] ==> LexLe(rows[0].symbol, x.symbol) by {
          forall x | x in rows[1..] ensures LexLe(rows[0].symbol, x.symbol) {
            LexLeTransitive(rows[0].symbol, m, x.symbol);
          }
        }
        LexLeReflexive(rows[0].symbol);
        rows[0].symbol
      else
        LexLeTotal(rows[0].symbol, m);
        assert m in Symbols(rows) by {
          var x :| x in rows[1..] && x.symbol == m;
          assert x in rows;
        }
        m
  }

  /** The groups: the smallest symbol first, then the groups of the remaining rows. */
  function GroupBy(rows: seq<JobRow>): seq<Group>
    decreases |rows|
  {
    if rows == [] then []
    else
      var k := MinSymbol(rows);
      [Group(k, WithSymbol(rows, k))] + GroupBy(WithoutSymbol(rows, k))
  }

  /** The rows of the groups, concatenated in group order. */
  function Flatten(groups: seq<Group>): seq<JobRow>
  {
    if groups == [] then [] else groups[0].rows + Flatten(groups[1..])
  }

  lemma {:induction false} WithSymbolOfWithout(rows: seq<JobRow>, k: Symbol, j: Symbol)
    requires j != k
    ensures WithSymbol(WithoutSymbol(rows, k), j) == WithSymbol(rows, j)
  {
    if rows != [] {
      WithSymbolOfWithout(rows[1..], k, j);
      if rows[0].symbol != k {
        assert WithoutSymbol(rows, k) == [rows[0]] + WithoutSymbol(rows[1..], k);
        assert ([rows[0]] + WithoutSymbol(rows[1..], k))[1..] == WithoutSymbol(rows[1..], k);
      } else {
        assert WithoutSymbol(rows, k) == WithoutSymbol(rows[1..], k);
      }
    }
  }

  lemma SymbolsOfWithout(rows: seq<JobRow>, k: Symbol)
    ensures Symbols(WithoutSymbol(rows, k)) == Symbols(rows) - {k}
  {
    assert forall s :: s in Symbols(rows) - {k} ==> s in Symbols(WithoutSymbol(rows, k)) by {
      forall s | s in Symbols(rows) - {k} ensures s in Symbols(WithoutSymbol(rows, k)) {
        var x :| x in rows && x.symbol == s;
        assert x in WithoutSymbol(rows, k);
      }
    }
  }

  /** Unfolds one step of the grouping. */
  lemma GroupByStep(rows: seq<JobRow>)
    requires rows != []
    ensures GroupBy(rows) == [Group(MinSymbol(rows), WithSymbol(rows, MinSymbol(rows)))] + GroupBy(WithoutSymbol(rows, MinSymbol(rows)))
  {
  }

  /** Each group is non-empty and holds exactly the rows with its symbol, in
      their original order. */
  lemma {:induction false} GroupByRows(rows: seq<JobRow>)
    ensures forall g :: g in GroupBy(rows) ==> g.symbol in Symbols(rows) && g.rows != [] && g.rows == WithSymbol(rows, g.symbol)
    decreases |rows|
  {
    if rows != [] {
      var k := MinSymbol(rows);
      var rest := WithoutSymbol(rows, k);
      GroupByRows(rest);
      SymbolsOfWithout(rows, k);
      GroupByStep(rows);
      forall g | g in GroupBy(rows) ensures g.symbol in Symbols(rows) && g.rows != [] && g.rows == WithSymbol(rows, g.symbol) {
        if g in GroupBy(rest) {
          WithSymbolOfWithout(rows, k, g.symbol);
        } else {
          var x :| x in rows && x.symbol == k;
          assert x in WithSymbol(rows, k);
        }
      }
    }
  }

  /** The groups come in strictly ascending symbol order, so no symbol has two groups. */
  lemma {:induction false} GroupByAscending(rows: seq<JobRow>)
    ensures forall i, j :: 0 <= i < j < |GroupBy(rows)| ==> LexLt(GroupBy(rows)[i].symbol, GroupBy(rows)[j].symbol)
    decreases |rows|
  {
    if rows != [] {
      var k := MinSymbol(rows);
      var rest := WithoutSymbol(rows, k);
      GroupByAscending(rest);
      GroupByRows(rest);
      GroupByStep(rows);
      var gs := GroupBy(rows);
      assert gs[1..] == GroupBy(rest);
      forall j | 0 < j < |gs| ensures LexLt(k, gs[j].symbol) {
        assert gs[j] in GroupBy(rest);
        assert gs[j].symbol in Symbols(rest);
        var x :| x in rest && x.symbol == gs[j].symbol;
      }
    }
  }

  /** The groups' symbols are distinct. */
  lemma GroupSymbolsDistinct(rows: seq<JobRow>)
    ensures forall i, j :: 0 <= i < j < |GroupBy(rows)| ==> GroupBy(rows)[i].symbol != GroupBy(rows)[j].symbol
  {
    GroupByAscending(rows);
  }

  predicate SortedBySymbol(rows: seq<JobRow>)
  {
    forall i, j :: 0 <= i < j < |rows| ==> LexLe(rows[i].symbol, rows[j].symbol)
  }

  lemma SortedRowsBySymbol(rows: seq<JobRow>)
    requires Sorted(rows)
    ensures SortedBySymbol(rows)
  {
    forall i, j | 0 <= i < j < |rows| ensures LexLe(rows[i].symbol, rows[j].symbol) {
      if rows[i].symbol == rows[j].symbol { LexLeReflexive(rows[i].symbol); }
    }
  }

  /** Rows whose symbols are all at least `k`, sorted by symbol, split into the
      `k` rows followed by the others. */
  lemma {:induction false} SortedSplit(rows: seq<JobRow>, k: Symbol)
    requires SortedBySymbol(rows)
    requires forall x :: x in rows ==> LexLe(k, x.symbol)
    ensures rows == WithSymbol(rows, k) + WithoutSymbol(rows, k)
    ensures WithoutSymbol(rows, k) == rows[|WithSymbol(rows, k)|..]
    decreases |rows|, 1
  {
    if rows != [] {
      if rows[0].symbol == k {
        SortedSplitHead(rows, k);
      } else {
        SortedSplitOther(rows, k);
      }
    }
  }

  lemma {:induction false} SortedSplitHead(rows: seq<JobRow>, k: Symbol)
    requires rows != [] && rows[0].symbol == k && SortedBySymbol(rows)
    requires forall x :: x in rows ==> LexLe(k, x.symbol)
    ensures rows == WithSymbol(rows, k) + WithoutSymbol(rows, k)
    ensures WithoutSymbol(rows, k) == rows[|WithSymbol(rows, k)|..]
    decreases |rows|, 0
  {
    var tail := rows[1..];
    SortedSuffix(rows, 1);
    HeadSplit(rows, k);
    SortedSplit(tail, k);
    ConsSplit(rows, WithSymbol(tail, k), WithoutSymbol(tail, k));
  }

  lemma ConsSplit<T>(s: seq<T>, w: seq<T>, o: seq<T>)
    requires s != [] && s[1..] == w + o && o == s[1..][|w|..]
    ensures s == [s[0]] + w + o && o == s[1 + |w|..]
  {
  }

  /** One unfolding of both filters on a row with symbol `k`. */
  lemma HeadSplit(rows: seq<JobRow>, k: Symbol)
    requires rows != [] && rows[0].symbol == k
    requires forall x :: x in rows ==> LexLe(k, x.symbol)
    ensures forall x :: x in rows[1..] ==> LexLe(k, x.symbol)
    ensures WithSymbol(rows, k) == [rows[0]] + WithSymbol(rows[1..], k)
    ensures WithoutSymbol(rows, k) == WithoutSymbol(rows[1..], k)
  {
    assert forall x :: x in rows[1..] ==> x in rows;
  }

  /** When the first row's symbol is above `k`, no row has symbol `k`. */
  lemma SortedSplitOther(rows: seq<JobRow>, k: Symbol)
    requires rows != [] && rows[0].symbol != k && SortedBySymbol(rows)
    requires forall x :: x in rows ==> LexLe(k, x.symbol)
    ensures rows == WithSymbol(rows, k) + WithoutSymbol(rows, k)
    ensures WithoutSymbol(rows, k) == rows[|WithSymbol(rows, k)|..]
  {
    forall x | x in rows ensures x.symbol != k {
      var j :| 0 <= j < |rows| && rows[j] == x;
      if x.symbol == k && j > 0 { LexLeAntisymmetric(k, rows[0].symbol); }
    }
    NoneWithSymbol(rows, k);
  }

  lemma {:induction false} NoneWithSymbol(rows: seq<JobRow>, k: Symbol)
    requires forall x :: x in rows ==> x.symbol != k
    ensures WithSymbol(rows, k) == [] && WithoutSymbol(rows, k) == rows
  {
    if rows != [] {
      NoneWithSymbol(rows[1..], k);
      assert rows == [rows[0]] + rows[1..];
    }
  }

  lemma SortedSuffix(rows: seq<JobRow>, n: nat)
    requires SortedBySymbol(rows) && n <= |rows|
    ensures SortedBySymbol(rows[n..])
  {
    var rest := rows[n..];
    forall i, j | 0 <= i < j < |rest| ensures LexLe(rest[i].symbol, rest[j].symbol) {
      assert rest[i] == rows[n + i] && rest[j] == rows[n + j];
    }
  }

  /** On rows already sorted by symbol (as the queries deliver them) the groups,
      taken in order, give back the rows in their loaded order. */
  lemma {:induction false} GroupByFlatten(rows: seq<JobRow>)
    requires SortedBySymbol(rows)
    ensures Flatten(GroupBy(rows)) == rows
    decreases |rows|
  {
    if rows != [] {
      var k := MinSymbol(rows);
      SortedSplit(rows, k);
      var rest := WithoutSymbol(rows, k);
      SortedSuffix(rows, |WithSymbol(rows, k)|);
      GroupByFlatten(rest);
      GroupByStep(rows);
      var gs := GroupBy(rows);
      assert gs[1..] == GroupBy(rest);
      assert Flatten(gs) == gs[0].rows + Flatten(gs[1..]);
    }
  }
}
