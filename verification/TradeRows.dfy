/** Fill rows as the reports read them, and sums over them. */
module TradeRows {
  import opened Wrappers
  import opened Text
  import opened LedgerTables

  /** `side` is absent for text that is neither BUY nor SELL. */
  datatype Row = Row(id: string, at: int, symbol: string, side: Option<Side>, quantity: int, price: real, strategy: string)

  predicate Sane(r: Row) {
    r.symbol != "" && r.side.Some? && r.quantity > 0 && r.price > 0.0
  }

  ghost predicate AllSane(rows: seq<Row>) {
    forall i :: 0 <= i < |rows| ==> Sane(rows[i])
  }

  function Money(price: real, shares: int): real {
    price * shares as real
  }

  lemma MoneyAdds(price: real, a: int, b: int)
    ensures Money(price, a + b) == Money(price, a) + Money(price, b)
    ensures Money(price, 0) == 0.0
    ensures price > 0.0 && a > 0 ==> Money(price, a) > 0.0
  {
    assert (a + b) as real == a as real + b as real;
  }

  // -------------------------------------------------------------- row order

  predicate After(a: Row, b: Row) {
    b.at < a.at || (b.at == a.at && LexLess(b.id, a.id))
  }

  /** `sorted(rows, key=(filled_at, fill_id))`, which is stable. */
  function SortedRows(rows: seq<Row>): (r: seq<Row>)
    ensures multiset(r) == multiset(rows)
  {
    if rows == [] then []
    else
      assert rows == rows[..|rows| - 1] + [rows[|rows| - 1]];
      Placed(SortedRows(rows[..|rows| - 1]), rows[|rows| - 1])
  }

  function Placed(rows: seq<Row>, x: Row): (r: seq<Row>)
    ensures multiset(r) == multiset(rows) + multiset{x}
    ensures |r| == |rows| + 1
  {
    if rows == [] then [x]
    else if After(rows[|rows| - 1], x) then
      assert rows == rows[..|rows| - 1] + [rows[|rows| - 1]];
      Placed(rows[..|rows| - 1], x) + [rows[|rows| - 1]]
    else rows + [x]
  }

  ghost predicate InOrder(rows: seq<Row>) {
    forall i, j :: 0 <= i < j < |rows| ==> !After(rows[i], rows[j])
  }

  lemma AfterOrders(a: Row, b: Row, c: Row)
    ensures After(a, b) ==> !After(b, a)
    ensures After(a, b) && !After(c, b) ==> !After(c, a)
    ensures !After(a, b) && !After(b, c) ==> !After(a, c)
  {
    LexLessTotal(a.id, b.id);
    LexLessTotal(b.id, c.id);
    LexLessTotal(a.id, c.id);
    if LexLess(b.id, a.id) && LexLess(a.id, c.id) {
      LexLessTransitive(b.id, a.id, c.id);
    }
    if LexLess(c.id, a.id) && LexLess(a.id, b.id) {
      LexLessTransitive(c.id, a.id, b.id);
    }
    if LexLess(a.id, b.id) && LexLess(b.id, c.id) {
      LexLessTransitive(a.id, b.id, c.id);
    }
    if LexLess(c.id, b.id) && LexLess(b.id, a.id) {
      LexLessTransitive(c.id, b.id, a.id);
    }
  }

  lemma {:induction false} PlacedInOrder(rows: seq<Row>, x: Row)
    requires InOrder(rows)
    ensures InOrder(Placed(rows, x))
  {
    if rows == [] {
    } else if After(rows[|rows| - 1], x) {
      var front, last := rows[..|rows| - 1], rows[|rows| - 1];
      PlacedInOrder(front, x);
      var r := Placed(front, x);
      forall i | 0 <= i < |r|
        ensures !After(r[i], last)
      {
        assert r[i] in multiset(r);
        AfterOrders(last, x, x);
        if r[i] != x {
          assert r[i] in multiset(front);
        }
      }
    } else {
      forall i | 0 <= i < |rows|
        ensures !After(rows[i], x)
      {
        AfterOrders(rows[i], rows[|rows| - 1], x);
      }
    }
  }

  /** The sort orders the rows, and leaves rows that are in order alone. */
  lemma {:induction false} SortingSorts(rows: seq<Row>)
    ensures InOrder(SortedRows(rows))
    ensures InOrder(rows) ==> SortedRows(rows) == rows
  {
    if rows != [] {
      var front, x := rows[..|rows| - 1], rows[|rows| - 1];
      assert rows == front + [x];
      SortingSorts(front);
      PlacedInOrder(SortedRows(front), x);
      if InOrder(rows) && front != [] {
        assert !After(front[|front| - 1], x);
      }
    }
  }

  // ------------------------------------------------------------------- sums

  /** Shares and money of one symbol and side. */
  function Shares(rows: seq<Row>, symbol: string, side: Side): int {
    if rows == [] then 0
    else
      var r := rows[|rows| - 1];
      Shares(rows[..|rows| - 1], symbol, side) + if r.symbol == symbol && r.side == Some(side) then r.quantity else 0
  }

  function Value(rows: seq<Row>, symbol: string, side: Side): real {
    if rows == [] then 0.0
    else
      var r := rows[|rows| - 1];
      Value(rows[..|rows| - 1], symbol, side) + if r.symbol == symbol && r.side == Some(side) then Money(r.price, r.quantity) else 0.0
  }

  /** At some point more of a symbol had been sold than bought. */
  ghost predicate Oversold(rows: seq<Row>) {
    exists k, s :: 0 <= k <= |rows| && Shares(rows[..k], s, Buy) < Shares(rows[..k], s, Sell)
  }
}
