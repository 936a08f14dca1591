/** `paper/report.py`: the paper journal replayed at average cost. */
module PaperReport {
  import opened Wrappers
  import opened LedgerTables
  import opened AverageCost
  import opened TradeRows
  import F = FifoLots

  /** Holdings by symbol, and what has been realized and spent so far. */
  datatype Paper = Paper(inventory: map<string, Inventory>, realized: real, spent: real) {
    function Of(symbol: string): Inventory {
      if symbol in inventory then inventory[symbol] else EMPTY
    }
  }

  const NOTHING := Paper(map[], 0.0, 0.0)

  /** What the journal's columns admit. */
  predicate Journalled(r: Row) {
    r.quantity > 0 && r.price > 0.0
  }

  function Profit(price: real, average: real, shares: int): real {
    (price - average) * shares as real
  }

  /** One row; a side that is neither BUY nor SELL only makes the symbol known. */
  function Traded(p: Paper, row: Row): Option<Paper> {
    var held := p.Of(row.symbol);
    if row.side == Some(Buy) then
      Some(Paper(p.inventory[row.symbol := Bought(held, row.quantity, row.price)], p.realized, p.spent + Money(row.price, row.quantity)))
    else if row.side.None? then Some(p.(inventory := p.inventory[row.symbol := held]))
    else if row.quantity > held.quantity then None
    else Some(p.(inventory := p.inventory[row.symbol := Sold(held, row.quantity)],
                 realized := p.realized + Profit(row.price, held.Average(), row.quantity)))
  }

  function Replay(rows: seq<Row>): Option<Paper> {
    if rows == [] then Some(NOTHING)
    else
      match Replay(rows[..|rows| - 1])
      case None => None
      case Some(p) => Traded(p, rows[|rows| - 1])
  }

  datatype Holding = Holding(quantity: nat, average: real)

  datatype Report = Report(
    fills: nat, positions: map<string, Holding>, spent: real, realized: real, symbols: set<string>,
    first: Option<int>, last: Option<int>)

  /** The open positions a replay ends with. */
  ghost predicate Shown(positions: map<string, Holding>, p: Paper) {
    forall s :: (s in positions <==> p.Of(s).quantity > 0)
                && (s in positions ==> positions[s] == Holding(p.Of(s).quantity, p.Of(s).Average()))
  }

  /** The loop over the sorted rows. */
  method ReplayRows(rows: seq<Row>) returns (r: Option<Paper>)
    ensures r == Replay(rows)
  {
    hide Profit, Money, Bought, Sold;
    var p := NOTHING;
    var i := 0;
    while i < |rows|
      invariant 0 <= i <= |rows| && Replay(rows[..i]) == Some(p)
    {
      var row := rows[i];
      assert rows[..i + 1][..i] == rows[..i];
      var held := p.Of(row.symbol);
      match row.side {
        case Some(Buy) =>
          p := Paper(p.inventory[row.symbol := Bought(held, row.quantity, row.price)], p.realized, p.spent + Money(row.price, row.quantity));
        case Some(Sell) =>
          if row.quantity > held.quantity {
            Stops(rows, i + 1);
            return None;
          }
          p := p.(inventory := p.inventory[row.symbol := Sold(held, row.quantity)],
                  realized := p.realized + Profit(row.price, held.Average(), row.quantity));
        case None =>
          p := p.(inventory := p.inventory[row.symbol := held]);
      }
      i := i + 1;
    }
    assert rows[..|rows|] == rows;
    r := Some(p);
  }

  method BuildPaperReport(fills: seq<Row>) returns (r: Outcome<Report>)
    ensures r.Done? <==> Replay(SortedRows(fills)).Some?
    ensures r.Done? ==>
              var p := Replay(SortedRows(fills)).value;
              && r.value.realized == p.realized && r.value.spent == p.spent && Shown(r.value.positions, p)
              && r.value.fills == |fills| && (forall s :: s in r.value.symbols <==> exists row :: row in fills && row.symbol == s)
              && (r.value.first.None? <==> fills == []) && (r.value.last.None? <==> fills == [])
              && (fills != [] ==> forall row :: row in fills ==> r.value.first.value <= row.at <= r.value.last.value)
  {
    hide Replay;
    SortingKeeps(fills);
    var replayed := ReplayRows(SortedRows(fills));
    if replayed.None? {
      return Raised(SellExceedsPosition);
    }
    var p := replayed.value;
    var positions := map s | s in p.inventory && p.inventory[s].quantity > 0 :: Holding(p.inventory[s].quantity, p.inventory[s].Average());
    var first, last := TimeRange(fills);
    r := Done(Report(|fills|, positions, p.spent, p.realized, set row | row in fills :: row.symbol, first, last));
  }

  lemma SortingKeeps(rows: seq<Row>)
    ensures forall row :: row in SortedRows(rows) <==> row in rows
    ensures |SortedRows(rows)| == |rows|
  {
    assert forall row :: row in SortedRows(rows) <==> row in multiset(SortedRows(rows));
    assert forall row :: row in rows <==> row in multiset(rows);
    assert |multiset(SortedRows(rows))| == |multiset(rows)|;
  }

  method TimeRange(rows: seq<Row>) returns (first: Option<int>, last: Option<int>)
    ensures (first.None? <==> rows == []) && (last.None? <==> rows == [])
    ensures rows != [] ==> forall row :: row in rows ==> first.value <= row.at <= last.value
  {
    first, last := None, None;
    var i := 0;
    while i < |rows|
      invariant 0 <= i <= |rows| && (first.None? <==> i == 0) && (last.None? <==> i == 0)
      invariant i > 0 ==> forall k :: 0 <= k < i ==> first.value <= rows[k].at <= last.value
    {
      if first.None? || rows[i].at < first.value {
        first := Some(rows[i].at);
      }
      if last.None? || rows[i].at > last.value {
        last := Some(rows[i].at);
      }
      i := i + 1;
    }
  }

  lemma {:induction false} Stops(rows: seq<Row>, n: nat)
    requires n <= |rows| && Replay(rows[..n]).None?
    ensures Replay(rows).None?
    decreases |rows|
  {
    if n == |rows| {
      assert rows[..n] == rows;
    } else {
      assert rows[..|rows| - 1][..n] == rows[..n];
      Stops(rows[..|rows| - 1], n);
    }
  }

  // ------------------------------------------------------------ cash and shares

  /** What the sales of one symbol realized. */
  function RealizedIn(rows: seq<Row>, symbol: string): real {
    if rows == [] || Replay(rows).None? then 0.0
    else
      var row, before := rows[|rows| - 1], Replay(rows[..|rows| - 1]).value;
      RealizedIn(rows[..|rows| - 1], symbol)
      + if row.symbol == symbol && row.side == Some(Sell) then Profit(row.price, before.Of(symbol).Average(), row.quantity) else 0.0
  }

  lemma BuyMoney(i: Inventory, quantity: int, price: real)
    ensures Bought(i, quantity, price).cost == i.cost + Money(price, quantity)
    ensures Bought(i, quantity, price).quantity == i.quantity + quantity
  {
  }

  lemma SellMoney(i: Inventory, quantity: int, price: real)
    requires quantity <= i.quantity
    ensures Profit(price, i.Average(), quantity) == Money(price, quantity) - (i.cost - Sold(i, quantity).cost)
    ensures Sold(i, quantity).quantity == i.quantity - quantity
    ensures 0 < quantity && Sold(i, quantity).quantity == 0 ==> Sold(i, quantity).cost == 0.0
  {
    assert (price - i.Average()) * quantity as real == price * quantity as real - i.Average() * quantity as real;
    if 0 < quantity == i.quantity {
      SoldKeepsAverage(i, quantity);
    }
  }

  /** Symbol by symbol the replay holds what was bought less what was sold, and
      has realized its sales less its purchases plus the cost of what is held;
      for rows the journal admits, nothing held costs nothing. */
  lemma {:induction false} RealizedIsCashFlow(rows: seq<Row>, symbol: string)
    requires Replay(rows).Some?
    ensures var held := Replay(rows).value.Of(symbol);
            && held.quantity == Shares(rows, symbol, Buy) - Shares(rows, symbol, Sell)
            && RealizedIn(rows, symbol) == Value(rows, symbol, Sell) - Value(rows, symbol, Buy) + held.cost
            && ((forall i :: 0 <= i < |rows| ==> Journalled(rows[i])) ==> 0 <= held.quantity && (held.quantity == 0 ==> held.cost == 0.0))
  {
    hide Profit, Money, Bought, Sold;
    if rows != [] {
      var front, row := rows[..|rows| - 1], rows[|rows| - 1];
      RealizedIsCashFlow(front, symbol);
      var held := Replay(front).value.Of(symbol);
      assert row.side.Some? ==> row.side.value.Buy? || row.side.value.Sell?;
      if row.symbol == symbol && row.side == Some(Buy) {
        BuyMoney(held, row.quantity, row.price);
      } else if row.symbol == symbol && row.side == Some(Sell) {
        SellMoney(held, row.quantity, row.price);
      }
    }
  }

  ghost function RealizedOver(symbols: seq<string>, rows: seq<Row>): real {
    if symbols == [] then 0.0 else RealizedIn(rows, symbols[0]) + RealizedOver(symbols[1..], rows)
  }

  ghost predicate Distinct(symbols: seq<string>) {
    forall i, j :: 0 <= i < j < |symbols| ==> symbols[i] != symbols[j]
  }

  lemma {:induction false} OneMoreSale(symbols: seq<string>, rows: seq<Row>)
    requires Distinct(symbols) && rows != [] && Replay(rows).Some?
    ensures var row, before := rows[|rows| - 1], Replay(rows[..|rows| - 1]).value;
            RealizedOver(symbols, rows) == RealizedOver(symbols, rows[..|rows| - 1])
            + if row.symbol in symbols && row.side == Some(Sell)
              then Profit(row.price, before.Of(row.symbol).Average(), row.quantity) else 0.0
  {
    hide Profit, Traded;
    if symbols != [] {
      OneMoreSale(symbols[1..], rows);
      var row := rows[|rows| - 1];
      assert row.symbol in symbols <==> row.symbol == symbols[0] || row.symbol in symbols[1..];
      if row.symbol == symbols[0] {
        assert row.symbol !in symbols[1..];
      }
    }
  }

  /** The total is the sum over the symbols. */
  lemma {:induction false} RealizedBySymbol(symbols: seq<string>, rows: seq<Row>)
    requires Distinct(symbols) && Replay(rows).Some? && forall i :: 0 <= i < |rows| ==> rows[i].symbol in symbols
    ensures Replay(rows).value.realized == RealizedOver(symbols, rows)
  {
    hide Profit;
    if rows == [] {
      NothingRealized(symbols);
    } else {
      RealizedBySymbol(symbols, rows[..|rows| - 1]);
      OneMoreSale(symbols, rows);
      assert rows[|rows| - 1].side.Some? ==> rows[|rows| - 1].side.value.Buy? || rows[|rows| - 1].side.value.Sell?;
    }
  }

  lemma {:induction false} NothingRealized(symbols: seq<string>)
    ensures RealizedOver(symbols, []) == 0.0
  {
    if symbols != [] {
      NothingRealized(symbols[1..]);
    }
  }

  // -------------------------------------------------- against the FIFO matcher

  /** Over well-formed rows the two methods accept the same histories, hold the
      same shares, and agree on the profit of every symbol that is flat. */
  lemma {:induction false} AgreesWithFifo(rows: seq<Row>, symbol: string)
    requires AllSane(rows)
    ensures Replay(rows).Some? <==> F.Fifo(rows).Some?
    ensures Replay(rows).Some? && F.Fifo(rows).Some? ==>
              var held, book := Replay(rows).value.Of(symbol), F.Fifo(rows).value;
              && held.quantity == F.LotShares(book.LotsOf(symbol))
              && (held.quantity == 0 ==> RealizedIn(rows, symbol) == F.Sum(book.pieces, F.OfSymbol(symbol, F.Gross())))
  {
    hide F.Gross, F.OfSymbol, Traded, F.Traded;
    SameAcceptance(rows);
    if Replay(rows).Some? && F.Fifo(rows).Some? {
      RealizedIsCashFlow(rows, symbol);
      F.FifoConserves(rows, symbol);
      F.NoSharesNoLots(F.Fifo(rows).value.LotsOf(symbol));
    }
  }

  lemma {:induction false} SameAcceptance(rows: seq<Row>)
    requires AllSane(rows)
    ensures Replay(rows).Some? <==> F.Fifo(rows).Some?
  {
    hide Bought, Sold, Profit, Money, F.MatchSale;
    if rows != [] {
      var front, row := rows[..|rows| - 1], rows[|rows| - 1];
      SameAcceptance(front);
      if Replay(front).Some? && F.Fifo(front).Some? {
        RealizedIsCashFlow(front, row.symbol);
        F.FifoConserves(front, row.symbol);
        F.SaleConserves(F.Fifo(front).value.LotsOf(row.symbol), row, row.quantity);
        assert Sane(row) && (row.side.value.Buy? || row.side.value.Sell?);
      }
    }
  }
}
