/** `paper/ledger.py`: the in-memory paper ledger, kept in step with the journal
    replay of `paper/report.py`. */
module PaperLedger {
  import opened Wrappers
  import opened Text
  import opened LedgerTables
  import opened AverageCost
  import opened TradeRows
  import R = PaperReport

  datatype OrderStatus = Pending | Complete | Refused | Withdrawn

  datatype PaperOrder = PaperOrder(symbol: string, side: Side, quantity: int, price: real, status: OrderStatus, filled: nat)

  datatype PaperFill = PaperFill(order: string, quantity: int, price: real)

  datatype PaperPosition = PaperPosition(quantity: nat, average: real)

  datatype State = State(
    orders: map<string, PaperOrder>, fills: map<string, PaperFill>, positions: map<string, PaperPosition>, realized: real)

  function HeldOf(positions: map<string, PaperPosition>, symbol: string): nat {
    if symbol in positions then positions[symbol].quantity else 0
  }

  /** The row a fill leaves in the journal. */
  function JournalRow(o: PaperOrder, id: string, f: PaperFill, at: int): Row {
    Row(id, at, o.symbol, Some(o.side), f.quantity, f.price, "")
  }

  function Submitted(s: State, id: string, o: PaperOrder): Outcome<(State, PaperOrder)> {
    if Blank(id) || Blank(o.symbol) || o.quantity <= 0 || o.price <= 0.0 then Raised(InvalidArgument)
    else if id in s.orders then
      var was := s.orders[id];
      if was.symbol != o.symbol || was.side != o.side || was.quantity != o.quantity || was.price != o.price then Raised(InvalidArgument)
      else Done((s, was))
    else
      var status := if o.side == Sell && o.quantity > HeldOf(s.positions, o.symbol) then Refused else Pending;
      var stored := PaperOrder(o.symbol, o.side, o.quantity, o.price, status, 0);
      Done((s.(orders := s.orders[id := stored]), stored))
  }

  /** Whether a fill of an order is taken as it stands. */
  predicate Fillable(s: State, f: PaperFill) {
    && f.order in s.orders && f.quantity > 0
    && var o := s.orders[f.order];
       && o.status != Refused && o.status != Withdrawn && o.filled + f.quantity <= o.quantity
       && (o.side == Sell ==> f.quantity <= HeldOf(s.positions, o.symbol))
  }

  function AfterFill(o: PaperOrder, f: PaperFill): PaperOrder
    requires f.quantity > 0
  {
    var filled := o.filled + f.quantity;
    o.(filled := filled, status := if filled == o.quantity then Complete else o.status)
  }

  /** An order is complete exactly when all of it is filled, and a refused one never was. */
  predicate StatusFits(o: PaperOrder) {
    && o.filled <= o.quantity && 0 < o.quantity && (o.status == Complete <==> o.filled == o.quantity)
    && (o.status == Refused || o.status == Withdrawn ==> o.filled == 0)
  }

  lemma StatusStays(s: State, f: PaperFill)
    requires Fillable(s, f) && StatusFits(s.orders[f.order])
    ensures StatusFits(AfterFill(s.orders[f.order], f))
  {
  }

  /** What the fill is refused for. */
  predicate Conflicting(s: State, id: string, f: PaperFill) {
    id in s.fills && s.fills[id] != f
  }

  class PaperLedger {
    var orders: map<string, PaperOrder>
    var fills: map<string, PaperFill>
    var positions: map<string, PaperPosition>
    var realized: real

    /** The journal rows of the accepted fills, in the order they came in. */
    ghost var journal: seq<Row>

    function Value(): State
      reads this
    {
      State(orders, fills, positions, realized)
    }

    /** The positions and the profit are those of the journal replayed. */
    ghost predicate Valid()
      reads this
    {
      && R.Replay(journal).Some?
      && realized == R.Replay(journal).value.realized
      && InStep(positions, R.Replay(journal).value)
      && |fills| == |journal|
      && (forall id :: id in orders ==> StatusFits(orders[id]))
      && JournalRows(journal)
      && (forall id :: id in orders ==> orders[id].symbol != "")
    }

    constructor ()
      ensures Valid() && Value() == State(map[], map[], map[], 0.0) && journal == []
    {
      orders, fills, positions, realized, journal := map[], map[], map[], 0.0, [];
    }

    /** A sale of more than is held is stored as rejected; a repeated id returns
        what is stored, or raises if it differs. */
    method SubmitOrder(id: string, o: PaperOrder) returns (r: Outcome<PaperOrder>)
      requires Valid()
      modifies this
      ensures Valid() && journal == old(journal)
      ensures match Submitted(old(Value()), id, o)
              case Raised(e) => r == Raised(e) && Value() == old(Value())
              case Done((s, stored)) => r == Done(stored) && Value() == s
      ensures !Blank(id) && !Blank(o.symbol) && o.quantity > 0 && o.price > 0.0 && id !in old(orders) ==>
                && r.Done? && positions == old(positions) && fills == old(fills) && realized == old(realized)
                && orders == old(orders)[id := r.value]
                && r.value == PaperOrder(o.symbol, o.side, o.quantity, o.price, r.value.status, 0)
                && r.value.status == if o.side == Sell && o.quantity > HeldOf(old(positions), o.symbol) then Refused else Pending
    {
      if Blank(id) || Blank(o.symbol) || o.quantity <= 0 || o.price <= 0.0 {
        return Raised(InvalidArgument);
      }
      if id in orders {
        var was := orders[id];
        if was.symbol != o.symbol || was.side != o.side || was.quantity != o.quantity || was.price != o.price {
          return Raised(InvalidArgument);
        }
        return Done(was);
      }
      var stored := o.(status := Pending, filled := 0);
      if stored.side == Sell && (o.symbol !in positions || o.quantity > positions[o.symbol].quantity) {
        stored := stored.(status := Refused);
      }
      orders := orders[id := stored];
      return Done(stored);
    }

    /** A repeated fill changes nothing, or raises if it differs; any other is
        accepted exactly when the order and the position have room for it. */
    method FillOrder(id: string, f: PaperFill) returns (r: Outcome<PaperFill>)
      requires Valid()
      modifies this
      ensures Valid()
      ensures Blank(id) || Blank(f.order) || f.quantity <= 0 || f.price <= 0.0 || Conflicting(old(Value()), id, f) ==> r.Raised?
      ensures r.Raised? || id in old(fills) ==> Value() == old(Value()) && journal == old(journal)
      ensures r.Done? ==> r.value == f
      ensures !Blank(id) && !Blank(f.order) && f.quantity > 0 && f.price > 0.0 && id !in old(fills) ==>
                (r.Done? <==> Fillable(old(Value()), f))
      ensures r.Done? && id !in old(fills) ==>
                && journal == old(journal) + [JournalRow(old(orders)[f.order], id, f, |old(journal)|)]
                && fills == old(fills)[id := f]
                && orders == old(orders)[f.order := AfterFill(old(orders)[f.order], f)]
    {
      hide R.Traded, InStep, JournalRows, R.Replay;
      if Blank(id) || Blank(f.order) || f.quantity <= 0 || f.price <= 0.0 {
        return Raised(InvalidArgument);
      }
      if id in fills {
        return if fills[id] != f then Raised(InvalidArgument) else Done(f);
      }
      if f.order !in orders {
        return Raised(UnknownOrder);
      }
      var o := orders[f.order];
      if o.status == Refused || o.status == Withdrawn || o.filled + f.quantity > o.quantity {
        return Raised(FillExceedsOrder);
      }
      if o.side == Sell && (o.symbol !in positions || f.quantity > positions[o.symbol].quantity) {
        return Raised(SellExceedsPosition);
      }
      TakeFill(id, f);
      return Done(f);
    }

    /** Books an accepted fill on its position, its order and the journal. */
    method TakeFill(id: string, f: PaperFill)
      requires Valid() && Fillable(Value(), f) && f.price > 0.0 && id !in fills
      modifies this
      ensures Valid()
      ensures journal == old(journal) + [JournalRow(old(orders)[f.order], id, f, |old(journal)|)]
      ensures fills == old(fills)[id := f]
      ensures orders == old(orders)[f.order := AfterFill(old(orders)[f.order], f)]
    {
      hide R.Traded, InStep, JournalRows, R.Journalled, StatusFits;
      var o := orders[f.order];
      StatusStays(Value(), f);
      ghost var row := JournalRow(o, id, f, |journal|);
      Recordable(row);
      OneMoreRow(journal, row);
      ApplyFill(o, f, row);
      fills := fills[id := f];
      o := o.(filled := o.filled + f.quantity);
      if o.filled == o.quantity {
        o := o.(status := Complete);
      }
      orders := orders[f.order := o];
      journal := journal + [row];
    }

    /** `_apply_fill`: the position change of one accepted fill. */
    method ApplyFill(o: PaperOrder, f: PaperFill, ghost row: Row)
      requires R.Replay(journal).Some? && InStep(positions, R.Replay(journal).value) && realized == R.Replay(journal).value.realized
      requires f.quantity > 0 && f.price > 0.0 && (o.side == Sell ==> f.quantity <= HeldOf(positions, o.symbol))
      requires row.symbol == o.symbol && row.side == Some(o.side) && row.quantity == f.quantity && row.price == f.price
      modifies this`positions, this`realized
      ensures R.Traded(R.Replay(journal).value, row).Some?
      ensures var p := R.Traded(R.Replay(journal).value, row).value; realized == p.realized && InStep(positions, p)
    {
      hide R.Replay, R.Traded, InStep, R.Profit, Blend;
      if o.side == Buy {
        BuyInStep(positions, R.Replay(journal).value, row);
        var held := if o.symbol in positions then positions[o.symbol] else PaperPosition(0, 0.0);
        positions := positions[o.symbol := PaperPosition(held.quantity + f.quantity,
                                                         Blend(held.quantity, held.average, f.quantity, f.price))];
      } else {
        assert o.side == Sell;
        SellInStep(positions, R.Replay(journal).value, row);
        var held := positions[o.symbol];
        realized := realized + R.Profit(f.price, held.average, f.quantity);
        var remaining := held.quantity - f.quantity;
        if remaining > 0 {
          positions := positions[o.symbol := PaperPosition(remaining, held.average)];
        } else {
          positions := positions - {o.symbol};
        }
      }
    }

    /** The open orders are the pending ones: those with shares left to fill that
        were not refused. An open BUY order takes any fill of what is left. */
    method OpenOrders() returns (open: set<string>)
      requires Valid()
      ensures forall id :: id in open <==>
                id in orders && orders[id].filled < orders[id].quantity && orders[id].status != Refused && orders[id].status != Withdrawn
      ensures forall f: PaperFill :: f.order in orders && orders[f.order].side == Buy && 0 < f.quantity ==>
                (Fillable(Value(), f) <==> f.order in open && f.quantity <= orders[f.order].quantity - orders[f.order].filled)
    {
      hide R.Replay, R.Traded, InStep, JournalRows;
      open := set id | id in orders && orders[id].status == Pending;
    }
  }

  // ------------------------------------------------------- ledger and journal

  /** Rows that could be the journal of accepted fills. */
  ghost predicate JournalRows(journal: seq<Row>) {
    forall i :: 0 <= i < |journal| ==> R.Journalled(journal[i]) && journal[i].symbol != "" && journal[i].at == i
  }

  lemma Recordable(row: Row)
    requires row.quantity > 0 && row.price > 0.0
    ensures R.Journalled(row)
  {
  }

  lemma OneMoreRow(journal: seq<Row>, row: Row)
    requires JournalRows(journal) && R.Journalled(row) && row.symbol != "" && row.at == |journal|
    ensures JournalRows(journal + [row]) && (journal + [row])[..|journal|] == journal
  {
  }

  /** Each position is the replayed holding at its average cost. */
  ghost predicate InStep(positions: map<string, PaperPosition>, p: R.Paper) {
    forall s :: if s in positions
                then positions[s].quantity == p.Of(s).quantity > 0 && positions[s].average == p.Of(s).Average()
                else p.Of(s).quantity == 0 && p.Of(s).cost == 0.0
  }

  lemma BoughtAverage(i: Inventory, n: Count, price: real)
    requires 0 <= i.quantity && (i.quantity == 0 ==> i.cost == 0.0)
    ensures Bought(i, n, price).Average() == Blend(i.quantity, i.Average(), n, price)
  {
    var q := i.quantity as real;
    if i.quantity > 0 {
      assert (i.cost / q) * q == i.cost;
    } else {
      assert q * i.Average() == 0.0;
    }
    assert q * i.Average() == i.cost;
    var after := Bought(i, n, price);
    assert after.cost == q * i.Average() + n as real * price && after.quantity == i.quantity + n > 0;
  }

  lemma BuyInStep(positions: map<string, PaperPosition>, p: R.Paper, row: Row)
    requires InStep(positions, p) && R.Journalled(row) && row.side == Some(Buy)
    ensures var held := if row.symbol in positions then positions[row.symbol] else PaperPosition(0, 0.0);
            var position := PaperPosition(held.quantity + row.quantity, Blend(held.quantity, held.average, row.quantity, row.price));
            R.Traded(p, row).Some? && InStep(positions[row.symbol := position], R.Traded(p, row).value)
            && R.Traded(p, row).value.realized == p.realized
  {
    hide Blend, Money;
    BoughtAverage(p.Of(row.symbol), row.quantity, row.price);
    assert p.Of(row.symbol).quantity == 0 ==> p.Of(row.symbol).Average() == 0.0;
  }

  lemma SellInStep(positions: map<string, PaperPosition>, p: R.Paper, row: Row)
    requires InStep(positions, p) && R.Journalled(row) && row.side == Some(Sell)
    requires row.symbol in positions && row.quantity <= positions[row.symbol].quantity
    ensures var held := positions[row.symbol];
            var left := held.quantity - row.quantity;
            && R.Traded(p, row).Some?
            && R.Traded(p, row).value.realized == p.realized + R.Profit(row.price, held.average, row.quantity)
            && InStep(if left > 0 then positions[row.symbol := PaperPosition(left, held.average)] else positions - {row.symbol},
                      R.Traded(p, row).value)
  {
    hide R.Profit, Money;
    SoldKeepsAverage(p.Of(row.symbol), row.quantity);
  }

  /** Rows of the same trades, stamped as the paper tables stamp them. */
  ghost predicate SameTrades(rows: seq<Row>, journal: seq<Row>) {
    |rows| == |journal|
    && forall i :: 0 <= i < |rows| ==>
         rows[i].symbol == journal[i].symbol && rows[i].side == journal[i].side
         && rows[i].quantity == journal[i].quantity && rows[i].price == journal[i].price
  }

  lemma {:induction false} SameTradesReplay(rows: seq<Row>, journal: seq<Row>)
    requires SameTrades(rows, journal)
    ensures R.Replay(rows) == R.Replay(journal)
  {
    hide R.Profit, Bought, Sold, Money;
    if rows != [] {
      SameTradesReplay(rows[..|rows| - 1], journal[..|journal| - 1]);
    }
  }

  /** The report over the stored rows of a ledger's fills, whatever their times as
      long as they are in order, shows the ledger's own positions, average costs
      and realized profit. */
  method CompareWithReport(ledger: PaperLedger, rows: seq<Row>) returns (r: Outcome<R.Report>)
    requires ledger.Valid() && SameTrades(rows, ledger.journal) && InOrder(rows)
    ensures r.Done? && r.value.realized == ledger.realized && r.value.fills == |ledger.fills|
    ensures r.value.positions.Keys == ledger.positions.Keys
    ensures forall s :: s in ledger.positions ==>
              r.value.positions[s] == R.Holding(ledger.positions[s].quantity, ledger.positions[s].average)
  {
    SortingSorts(rows);
    SameTradesReplay(rows, ledger.journal);
    r := R.BuildPaperReport(rows);
  }

  /** Profit realized on paper is sales less purchases plus the cost of what is
      still held; with nothing held it is also the FIFO matcher's gross profit. */
  lemma PaperProfit(journal: seq<Row>, symbol: string)
    requires R.Replay(journal).Some? && forall i :: 0 <= i < |journal| ==> Sane(journal[i])
    ensures R.RealizedIn(journal, symbol)
            == TradeRows.Value(journal, symbol, Sell) - TradeRows.Value(journal, symbol, Buy) + R.Replay(journal).value.Of(symbol).cost
    ensures R.F.Fifo(journal).Some?
    ensures R.Replay(journal).value.Of(symbol).quantity == 0 ==>
              R.RealizedIn(journal, symbol) == R.F.Sum(R.F.Fifo(journal).value.pieces, R.F.OfSymbol(symbol, R.F.Gross()))
  {
    hide R.Traded, R.F.Traded, R.F.Gross, R.F.OfSymbol;
    R.RealizedIsCashFlow(journal, symbol);
    R.AgreesWithFifo(journal, symbol);
  }
}
