/** The order of the matching, share by share: the first share of a symbol bought
    is the first one sold. */
module FifoOrder {
  import opened Wrappers
  import opened LedgerTables
  import opened TradeRows
  import opened FifoLots

  /** A share as it was bought, and as it was sold. */
  datatype Bought = Bought(price: real, strategy: string)
  datatype Sold = Sold(price: real, at: int)

  function Copies<T>(n: nat, x: T): (r: seq<T>)
    ensures |r| == n && forall i :: 0 <= i < n ==> r[i] == x
  {
    if n == 0 then [] else Copies(n - 1, x) + [x]
  }

  lemma CopiesAdd<T>(a: nat, b: nat, x: T)
    ensures Copies(a + b, x) == Copies(a, x) + Copies(b, x)
  {
  }

  /** A symbol's BUY rows written out share by share, in row order. */
  function BoughtOut(rows: seq<Row>, symbol: string): seq<Bought> {
    if rows == [] then [] else BoughtOut(rows[..|rows| - 1], symbol) + BoughtBy(rows[|rows| - 1], symbol)
  }

  function BoughtBy(row: Row, symbol: string): seq<Bought> {
    if row.symbol == symbol && row.side == Some(Buy) && row.quantity > 0
    then Copies(row.quantity, Bought(row.price, if row.strategy == "" then "UNKNOWN" else row.strategy)) else []
  }

  /** And its SELL rows. */
  function SoldOut(rows: seq<Row>, symbol: string): seq<Sold> {
    if rows == [] then [] else SoldOut(rows[..|rows| - 1], symbol) + SoldBy(rows[|rows| - 1], symbol)
  }

  function SoldBy(row: Row, symbol: string): seq<Sold> {
    if row.symbol == symbol && row.side == Some(Sell) && row.quantity > 0 then Copies(row.quantity, Sold(row.price, row.at)) else []
  }

  /** The matched pieces of a symbol written out by what their shares cost, and by
      what they went for. */
  function PiecesBought(ps: seq<Piece>, symbol: string): seq<Bought> {
    if ps == [] then []
    else
      var p := ps[|ps| - 1];
      PiecesBought(ps[..|ps| - 1], symbol) + if p.symbol == symbol then Copies(p.shares, Bought(p.bought, p.strategy)) else []
  }

  function PiecesSold(ps: seq<Piece>, symbol: string): seq<Sold> {
    if ps == [] then []
    else
      var p := ps[|ps| - 1];
      PiecesSold(ps[..|ps| - 1], symbol) + if p.symbol == symbol then Copies(p.shares, Sold(p.sold, p.at)) else []
  }

  function LotsOut(lots: seq<Lot>): seq<Bought> {
    if lots == [] then [] else Copies(lots[0].quantity, Bought(lots[0].price, lots[0].strategy)) + LotsOut(lots[1..])
  }

  lemma {:induction false} PiecesAppend(ps: seq<Piece>, qs: seq<Piece>, symbol: string)
    ensures PiecesBought(ps + qs, symbol) == PiecesBought(ps, symbol) + PiecesBought(qs, symbol)
    ensures PiecesSold(ps + qs, symbol) == PiecesSold(ps, symbol) + PiecesSold(qs, symbol)
  {
    if qs == [] {
      assert ps + qs == ps;
    } else {
      PiecesAppend(ps, qs[..|qs| - 1], symbol);
      assert (ps + qs)[..|ps + qs| - 1] == ps + qs[..|qs| - 1];
    }
  }

  lemma PieceAlone(p: Piece, symbol: string)
    ensures PiecesBought([p], symbol) == if p.symbol == symbol then Copies(p.shares, Bought(p.bought, p.strategy)) else []
    ensures PiecesSold([p], symbol) == if p.symbol == symbol then Copies(p.shares, Sold(p.sold, p.at)) else []
  {
    assert [p][..0] == [];
  }

  lemma {:induction false} LotLast(lots: seq<Lot>, lot: Lot)
    ensures LotsOut(lots + [lot]) == LotsOut(lots) + Copies(lot.quantity, Bought(lot.price, lot.strategy))
  {
    if lots == [] {
      assert [lot][1..] == [];
    } else {
      LotLast(lots[1..], lot);
      assert (lots + [lot])[1..] == lots[1..] + [lot];
    }
  }

  /** What is left of the lots is what comes after the matched shares. */
  lemma LeftIsRest(lots: seq<Lot>, matched: Count)
    requires lots != [] && matched <= lots[0].quantity
    ensures LotsOut(lots) == Copies(matched, Bought(lots[0].price, lots[0].strategy)) + LotsOut(LotsLeft(lots, matched))
  {
    hide Copies, LotsOut;
    var lot, rest := lots[0], lots[1..];
    assert lots == [lot] + rest;
    LotFirst(lot, rest);
    if matched < lot.quantity {
      var less := lot.(quantity := lot.quantity - matched);
      LotFirst(less, rest);
      CopiesAdd(matched, lot.quantity - matched, Bought(lot.price, lot.strategy));
    }
  }

  lemma LotFirst(lot: Lot, rest: seq<Lot>)
    ensures LotsOut([lot] + rest) == Copies(lot.quantity, Bought(lot.price, lot.strategy)) + LotsOut(rest)
  {
    hide Copies;
    assert ([lot] + rest)[1..] == rest;
  }

  /** A sale takes the first shares of the queue, each at the sale's price and time. */
  lemma {:induction false} SaleTakesFirst(lots: seq<Lot>, row: Row, remaining: nat)
    requires MatchSale(lots, row, remaining).Some?
    ensures var (rest, pieces) := MatchSale(lots, row, remaining).value;
            && LotsOut(lots) == PiecesBought(pieces, row.symbol) + LotsOut(rest)
            && PiecesSold(pieces, row.symbol) == Copies(remaining, Sold(row.price, row.at))
            && forall s :: s != row.symbol ==> PiecesBought(pieces, s) == [] && PiecesSold(pieces, s) == []
    decreases remaining
  {
    hide LotsLeft, PiecesBought, PiecesSold, LotsOut;
    if remaining == 0 {
      NoPieces();
    } else {
      var matched: Count := if remaining < lots[0].quantity then remaining else lots[0].quantity;
      var left := LotsLeft(lots, matched);
      LeftIsRest(lots, matched);
      SaleTakesFirst(left, row, remaining - matched);
      var (rest, pieces) := MatchSale(left, row, remaining - matched).value;
      var p := PieceOf(row, lots[0], matched);
      CopiesAdd(matched, remaining - matched, Sold(row.price, row.at));
      forall s
        ensures PiecesBought([p] + pieces, s) == PiecesBought([p], s) + PiecesBought(pieces, s)
        ensures PiecesSold([p] + pieces, s) == PiecesSold([p], s) + PiecesSold(pieces, s)
        ensures s != row.symbol ==> PiecesBought([p], s) == [] && PiecesSold([p], s) == []
      {
        PiecesAppend([p], pieces, s);
        PieceAlone(p, s);
      }
      PieceAlone(p, row.symbol);
    }
  }

  lemma NoPieces()
    ensures forall s :: PiecesBought([], s) == [] && PiecesSold([], s) == []
  {
  }

  /** One more row appends what it buys at the end, and what it sells. */
  lemma RowInOrder(b: Book, row: Row, symbol: string)
    requires Traded(b, row).Some?
    ensures var c := Traded(b, row).value;
            && PiecesBought(c.pieces, symbol) + LotsOut(c.LotsOf(symbol))
               == PiecesBought(b.pieces, symbol) + LotsOut(b.LotsOf(symbol)) + BoughtBy(row, symbol)
            && PiecesSold(c.pieces, symbol) == PiecesSold(b.pieces, symbol) + SoldBy(row, symbol)
  {
    hide PiecesBought, PiecesSold, MatchSale, Copies, LotsOut;
    assert row.side.value.Buy? || row.side.value.Sell?;
    if row.side == Some(Buy) {
      LotLast(b.LotsOf(row.symbol), Lot(row.quantity, row.price, StrategyOf(row)));
    } else {
      SaleTakesFirst(b.LotsOf(row.symbol), row, row.quantity);
      var (rest, pieces) := MatchSale(b.LotsOf(row.symbol), row, row.quantity).value;
      PiecesAppend(b.pieces, pieces, symbol);
      if symbol == row.symbol {
        assert PiecesBought(b.pieces, symbol) + (PiecesBought(pieces, symbol) + LotsOut(rest))
            == PiecesBought(b.pieces, symbol) + PiecesBought(pieces, symbol) + LotsOut(rest);
      }
    }
  }

  /** First in, first out: written out share by share, what a symbol's matched
      pieces cost and the lots left over are its purchases in row order, and what
      the pieces went for are its sales in row order. So the k-th share sold is
      matched with the k-th share bought. */
  lemma {:induction false} FirstInFirstOut(rows: seq<Row>, symbol: string)
    requires Fifo(rows).Some?
    ensures var b := Fifo(rows).value;
            && BoughtOut(rows, symbol) == PiecesBought(b.pieces, symbol) + LotsOut(b.LotsOf(symbol))
            && SoldOut(rows, symbol) == PiecesSold(b.pieces, symbol)
  {
    hide PiecesBought, PiecesSold, Traded, BoughtBy, SoldBy, LotsOut;
    if rows == [] {
      NoPieces();
      assert LotsOut([]) == [] by { NoLots(); }
    } else {
      FirstInFirstOut(rows[..|rows| - 1], symbol);
      RowInOrder(Fifo(rows[..|rows| - 1]).value, rows[|rows| - 1], symbol);
    }
  }

  lemma NoLots()
    ensures LotsOut([]) == []
  {
  }
}
