/** First-in-first-out matching of sales against purchases: what both profit
    reports compute, as a function of the rows. */
module FifoLots {
  import opened Wrappers
  import opened LedgerTables
  import opened TradeRows

  datatype Lot = Lot(quantity: Count, price: real, strategy: string)

  /** The part of a sale that one lot supplied. */
  datatype Piece = Piece(symbol: string, at: int, shares: Count, bought: real, sold: real, strategy: string)

  datatype Book = Book(lots: map<string, seq<Lot>>, pieces: seq<Piece>) {
    function LotsOf(symbol: string): seq<Lot> {
      if symbol in lots then lots[symbol] else []
    }
  }

  const NO_TRADES := Book(map[], [])

  /** The oldest lot supplies what it can, then the next. */
  function MatchSale(lots: seq<Lot>, row: Row, remaining: nat): Option<(seq<Lot>, seq<Piece>)>
    decreases remaining
  {
    if remaining == 0 then Some((lots, []))
    else if lots == [] then None
    else
      var lot := lots[0];
      var matched: Count := if remaining < lot.quantity then remaining else lot.quantity;
      match MatchSale(LotsLeft(lots, matched), row, remaining - matched)
      case None => None
      case Some((rest, pieces)) => Some((rest, [PieceOf(row, lot, matched)] + pieces))
  }

  function PieceOf(row: Row, lot: Lot, matched: Count): Piece {
    Piece(row.symbol, row.at, matched, lot.price, row.price, lot.strategy)
  }

  function LotsLeft(lots: seq<Lot>, matched: Count): seq<Lot>
    requires lots != [] && matched <= lots[0].quantity
  {
    if matched == lots[0].quantity then lots[1..] else [lots[0].(quantity := lots[0].quantity - matched)] + lots[1..]
  }

  function StrategyOf(row: Row): string {
    if row.strategy == "" then "UNKNOWN" else row.strategy
  }

  function Traded(b: Book, row: Row): Option<Book> {
    if !Sane(row) then None
    else if row.side == Some(Buy) then
      Some(b.(lots := b.lots[row.symbol := b.LotsOf(row.symbol) + [Lot(row.quantity, row.price, StrategyOf(row))]]))
    else
      match MatchSale(b.LotsOf(row.symbol), row, row.quantity)
      case None => None
      case Some((rest, pieces)) => Some(Book(b.lots[row.symbol := rest], b.pieces + pieces))
  }

  /** The book after all rows, or nothing if one is unusable or sells too much. */
  function Fifo(rows: seq<Row>): Option<Book> {
    if rows == [] then Some(NO_TRADES)
    else
      match Fifo(rows[..|rows| - 1])
      case None => None
      case Some(b) => Traded(b, rows[|rows| - 1])
  }

  // ------------------------------------------------------------------- sums

  function Sum(ps: seq<Piece>, f: Piece -> real): real {
    if ps == [] then 0.0 else Sum(ps[..|ps| - 1], f) + f(ps[|ps| - 1])
  }

  lemma {:induction false} SumAppend(ps: seq<Piece>, qs: seq<Piece>, f: Piece -> real)
    ensures Sum(ps + qs, f) == Sum(ps, f) + Sum(qs, f)
  {
    if qs == [] {
      assert ps + qs == ps;
    } else {
      SumAppend(ps, qs[..|qs| - 1], f);
      assert (ps + qs)[..|ps + qs| - 1] == ps + qs[..|qs| - 1];
    }
  }

  lemma SumOne(p: Piece, f: Piece -> real)
    ensures Sum([p], f) == f(p)
  {
    assert [p][..0] == [];
  }

  function LotShares(lots: seq<Lot>): int {
    if lots == [] then 0 else lots[0].quantity + LotShares(lots[1..])
  }

  function LotCost(lots: seq<Lot>): real {
    if lots == [] then 0.0 else Money(lots[0].price, lots[0].quantity) + LotCost(lots[1..])
  }

  lemma {:induction false} LotsAppend(lots: seq<Lot>, lot: Lot)
    ensures LotShares(lots + [lot]) == LotShares(lots) + lot.quantity
    ensures LotCost(lots + [lot]) == LotCost(lots) + Money(lot.price, lot.quantity)
  {
    if lots == [] {
      assert ([lot])[1..] == [];
    } else {
      LotsAppend(lots[1..], lot);
      assert (lots + [lot])[1..] == lots[1..] + [lot];
    }
  }

  lemma {:induction false} NoSharesNoLots(lots: seq<Lot>)
    ensures LotShares(lots) >= 0 && (LotShares(lots) == 0 ==> lots == [])
  {
    if lots != [] {
      NoSharesNoLots(lots[1..]);
    }
  }

  // ------------------------------------------------------------- one sale

  /** What the matched shares sold for, cost, and gained. */
  function Proceeds(): Piece -> real {
    (p: Piece) => Money(p.sold, p.shares)
  }

  function Basis(): Piece -> real {
    (p: Piece) => Money(p.bought, p.shares)
  }

  function Gross(): Piece -> real {
    (p: Piece) => Money(p.sold, p.shares) - Money(p.bought, p.shares)
  }

  /** A weight restricted to the pieces of one symbol. */
  function OfSymbol(symbol: string, f: Piece -> real): Piece -> real {
    (p: Piece) => if p.symbol == symbol then f(p) else 0.0
  }

  lemma LotsLeftSum(lots: seq<Lot>, matched: Count)
    requires lots != [] && matched <= lots[0].quantity
    ensures LotShares(LotsLeft(lots, matched)) == LotShares(lots) - matched
    ensures LotCost(LotsLeft(lots, matched)) == LotCost(lots) - Money(lots[0].price, matched)
  {
    hide Money;
    var lot, rest := lots[0], lots[1..];
    if matched < lot.quantity {
      var less := lot.(quantity := lot.quantity - matched);
      LotsFirst(less, rest);
      MoneyAdds(lot.price, matched, lot.quantity - matched);
    }
  }

  lemma LotsFirst(lot: Lot, rest: seq<Lot>)
    ensures LotShares([lot] + rest) == lot.quantity + LotShares(rest)
    ensures LotCost([lot] + rest) == Money(lot.price, lot.quantity) + LotCost(rest)
  {
    assert ([lot] + rest)[1..] == rest;
  }

  /** A sale succeeds exactly when enough shares are held; it takes out what it
      sells, and its gross profit is its proceeds less the cost of those shares. */
  lemma {:induction false} SaleConserves(lots: seq<Lot>, row: Row, remaining: nat)
    ensures MatchSale(lots, row, remaining).Some? <==> remaining <= LotShares(lots)
    ensures MatchSale(lots, row, remaining).Some? ==>
              var (rest, pieces) := MatchSale(lots, row, remaining).value;
              && LotShares(rest) == LotShares(lots) - remaining
              && Sum(pieces, Proceeds()) == Money(row.price, remaining) && Sum(pieces, Basis()) == LotCost(lots) - LotCost(rest)
              && forall p :: p in pieces ==> p.symbol == row.symbol && p.at == row.at && p.sold == row.price
    decreases remaining
  {
    hide Money, LotsLeft;
    NoSharesNoLots(lots);
    MoneyAdds(row.price, remaining, 0);
    if remaining > 0 && lots != [] {
      var matched: Count := if remaining < lots[0].quantity then remaining else lots[0].quantity;
      var left := LotsLeft(lots, matched);
      LotsLeftSum(lots, matched);
      NoSharesNoLots(left);
      SaleConserves(left, row, remaining - matched);
      if MatchSale(left, row, remaining - matched).Some? {
        var pieces := MatchSale(left, row, remaining - matched).value.1;
        var p := PieceOf(row, lots[0], matched);
        SumAppend([p], pieces, Proceeds());
        SumAppend([p], pieces, Basis());
        SumOne(p, Proceeds());
        SumOne(p, Basis());
        MoneyAdds(row.price, matched, remaining - matched);
      }
    }
  }

  lemma {:induction false} OnlySymbol(ps: seq<Piece>, symbol: string, of: string, f: Piece -> real)
    requires forall p :: p in ps ==> p.symbol == of
    ensures Sum(ps, OfSymbol(symbol, f)) == if symbol == of then Sum(ps, f) else 0.0
  {
    if ps != [] {
      assert forall p :: p in ps[..|ps| - 1] ==> p in ps;
      assert ps[|ps| - 1] in ps;
      OnlySymbol(ps[..|ps| - 1], symbol, of, f);
    }
  }

  // ------------------------------------------------------------ whole books

  lemma {:induction false} GrossSplits(ps: seq<Piece>, symbol: string)
    ensures Sum(ps, OfSymbol(symbol, Gross())) == Sum(ps, OfSymbol(symbol, Proceeds())) - Sum(ps, OfSymbol(symbol, Basis()))
    ensures Sum(ps, Gross()) == Sum(ps, Proceeds()) - Sum(ps, Basis())
  {
    hide Money;
    if ps != [] {
      GrossSplits(ps[..|ps| - 1], symbol);
    }
  }

  /** Shares and money are conserved symbol by symbol: the lots left are what was
      bought less what was sold, the matched shares sold for what the sales brought
      and cost what the purchases did less those lots, and the gross profit is the
      difference. */
  lemma {:induction false} FifoConserves(rows: seq<Row>, symbol: string)
    requires Fifo(rows).Some?
    ensures var b := Fifo(rows).value;
            && LotShares(b.LotsOf(symbol)) == Shares(rows, symbol, Buy) - Shares(rows, symbol, Sell)
            && Sum(b.pieces, OfSymbol(symbol, Proceeds())) == Value(rows, symbol, Sell)
            && Sum(b.pieces, OfSymbol(symbol, Basis())) == Value(rows, symbol, Buy) - LotCost(b.LotsOf(symbol))
            && Sum(b.pieces, OfSymbol(symbol, Gross()))
               == Value(rows, symbol, Sell) - (Value(rows, symbol, Buy) - LotCost(b.LotsOf(symbol)))
  {
    hide Money, MatchSale, OfSymbol, Proceeds, Basis, Gross;
    if Fifo(rows).Some? {
      GrossSplits(Fifo(rows).value.pieces, symbol);
    }
    if rows != [] {
      var front, row := rows[..|rows| - 1], rows[|rows| - 1];
      FifoConserves(front, symbol);
      var b := Fifo(front).value;
      if row.side == Some(Buy) {
        LotsAppend(b.LotsOf(row.symbol), Lot(row.quantity, row.price, StrategyOf(row)));
      } else {
        assert row.side.value.Buy? || row.side.value.Sell?;
        SaleConserves(b.LotsOf(row.symbol), row, row.quantity);
        var (rest, pieces) := MatchSale(b.LotsOf(row.symbol), row, row.quantity).value;
        OnlySymbol(pieces, symbol, row.symbol, Proceeds());
        OnlySymbol(pieces, symbol, row.symbol, Basis());
        SumAppend(b.pieces, pieces, OfSymbol(symbol, Proceeds()));
        SumAppend(b.pieces, pieces, OfSymbol(symbol, Basis()));
      }
    }
  }

  /** For well-formed rows the matching fails exactly when some prefix of them
      sells more of a symbol than it bought. */
  lemma {:induction false} FailsIffOversold(rows: seq<Row>)
    requires AllSane(rows)
    ensures Fifo(rows).None? <==> Oversold(rows)
  {
    if rows == [] {
    } else {
      var front, row := rows[..|rows| - 1], rows[|rows| - 1];
      FailsIffOversold(front);
      OversoldSplit(rows);
      if Fifo(front).Some? {
        var b := Fifo(front).value;
        FifoConserves(front, row.symbol);
        assert forall k :: 0 <= k <= |front| ==> front[..k] == rows[..k];
        assert front[..|front|] == front;
        SaleConserves(b.LotsOf(row.symbol), row, row.quantity);
        assert row.side.value.Buy? || row.side.value.Sell?;
        if row.side == Some(Sell) && row.quantity > LotShares(b.LotsOf(row.symbol)) {
          assert Shares(rows, row.symbol, Buy) < Shares(rows, row.symbol, Sell);
        }
        forall s
          ensures s != row.symbol || row.side == Some(Buy) ==> Shares(rows, s, Buy) >= Shares(rows, s, Sell)
        {
          assert !Oversold(front);
          assert Shares(front[..|front|], s, Buy) >= Shares(front[..|front|], s, Sell);
        }
      }
    }
  }

  /** The oversold point lies in the front, or is the whole. */
  lemma OversoldSplit(rows: seq<Row>)
    requires rows != []
    ensures Oversold(rows) <==> Oversold(rows[..|rows| - 1]) || exists s :: Shares(rows, s, Buy) < Shares(rows, s, Sell)
  {
    var front := rows[..|rows| - 1];
    assert forall k :: 0 <= k <= |front| ==> front[..k] == rows[..k];
    assert rows[..|rows|] == rows;
    if s :| Shares(rows, s, Buy) < Shares(rows, s, Sell) {
      assert Shares(rows[..|rows|], s, Buy) < Shares(rows[..|rows|], s, Sell);
    }
    if k, s :| 0 <= k <= |front| && Shares(front[..k], s, Buy) < Shares(front[..k], s, Sell) {
      assert Shares(rows[..k], s, Buy) < Shares(rows[..k], s, Sell);
    }
    if k, s :| 0 <= k <= |rows| && Shares(rows[..k], s, Buy) < Shares(rows[..k], s, Sell) {
      if k < |rows| {
        assert Shares(front[..k], s, Buy) < Shares(front[..k], s, Sell);
      }
    }
  }
}
