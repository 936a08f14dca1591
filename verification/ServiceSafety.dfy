/** What every run of the service keeps. */
module ServiceSafety {
  import opened Wrappers
  import opened Text
  import opened LedgerTables
  import opened LedgerInvariant
  import opened LedgerRuns
  import opened BrokerRecords
  import opened Reconciliation
  import opened OrderManagement
  import opened TruthfulBroker
  import opened ReconcileTruth
  import opened PassTruth
  import opened ReconcileTheorems
  import opened ManageTruth
  import opened ServiceRun

  /** Orders the broker may know of: called, or about to be. */
  ghost function Reached(w: World): set<string> {
    (set c | c in w.calls) + if w.trader.Cleared? then {w.trader.ticket.client} else {}
  }

  /** Each broker order is the one order of one client id the broker was called with. */
  ghost predicate BrokerKnown(w: World, n: string)
    requires n in w.broker
  {
    var b := w.broker[n];
    && b.client in w.calls && b.client in w.ledger.orders
    && (w.ledger.orders[b.client].brokerId == None || w.ledger.orders[b.client].brokerId == Some(n))
    && var o := w.ledger.orders[b.client];
       o.symbol == b.symbol && o.side == b.side && o.requested == b.quantity
  }

  ghost predicate BrokerBook(w: World) {
    && (forall n :: n in w.broker ==> BrokerKnown(w, n))
    && (forall m, n :: m in w.broker && n in w.broker && w.broker[m].client == w.broker[n].client ==> m == n)
  }

  ghost predicate CallLog(w: World) {
    NoRepeats(w.calls) && forall c :: c in w.calls ==> c in w.ledger.orders
  }

  /** The claimed row of the order the trading loop is placing. */
  ghost predicate RowOfTicket(w: World, t: Ticket) {
    && t.client in w.ledger.orders
    && var o := w.ledger.orders[t.client];
       o.symbol == t.symbol && o.side == t.side && o.requested == t.quantity && o.signal == Some(t.signal) && o.brokerId == None
  }

  ghost predicate TraderOk(w: World) {
    match w.trader
    case Vetted(t) =>
      t.side == Sell ==> !Unresolved(w.ledger.orders, t.symbol, Sell)
                         && |ExitOrders(w.ledger.orders, t.signal, t.symbol)| <= w.maxRequotes
    case Claimed(t) => RowOfTicket(w, t) && t.client !in w.calls && w.ledger.orders[t.client].status == Intent
    case Marked(t) => RowOfTicket(w, t) && t.client !in w.calls && w.ledger.orders[t.client].status == Submitting
    case Refused(t) => RowOfTicket(w, t) && t.client !in w.calls && w.ledger.orders[t.client].status == Submitting
    case Cleared(t) => RowOfTicket(w, t) && t.client !in w.calls && w.ledger.orders[t.client].status == Submitting
    case Answered(t, number) =>
      && RowOfTicket(w, t) && t.client in w.calls && w.ledger.orders[t.client].status == Submitting
      && (number.Some? ==> number.value in w.broker && w.broker[number.value].client == t.client)
    case _ => true
  }

  ghost predicate ExitsBounded(w: World) {
    forall signal, symbol :: |ExitOrders(w.ledger.orders, signal, symbol)| <= w.maxRequotes + 1
  }

  ghost predicate Safe(w: World) {
    && PassReady(w.ledger, w.broker, Reached(w))
    && BrokerBook(w) && CallLog(w) && TraderOk(w) && ExitsBounded(w)
  }

  // ------------------------------------------------------- supervisor passes

  /** A pass runs to its end, touches only orders with a broker number, whose
      identity it leaves alone, and keeps whatever sales were covered covered. */
  lemma PassKeeps(w: World, s: Snapshot, reached: set<string>)
    requires Sensible(w, s) && PassReady(w.ledger, w.broker, reached)
    ensures var v := AfterSupervise(w, s);
            && PassReady(v.ledger, w.broker, reached) && PassEffect(w.ledger, v.ledger, s.rows + s.buys + s.open)
            && AllLevel(v.ledger, s.records) && v.ledger.positions == AfterReconcile(w, s).ledger.positions
            && v == w.(ledger := v.ledger, pending := v.pending, cancelRequested := false,
                       review := v.review, blockEntries := v.blockEntries)
  {
    hide Mirrors, SalesTakenIn, OneLiveSale, CoveredSales, AllLevel, CancelBuyRows, ManageRows, ReconcileRows, Unapplied;
    var q := AfterReconcile(w, s);
    PassRefinesBroker(w.ledger, w.broker, reached, s.rows, s.records, s.market.now);
    assert AllLevel(q.ledger, s.records) by {
      LevelAll(q.ledger, s.records);
    }
    RowsTruth(Progress(w.ledger, NOTHING_YET, None), w.broker, reached, s.rows, s.records, s.market.now);
    var d := AfterCancels(w, s, q.ledger);
    CancelsKeep(w, s, q.ledger, reached);
    var e := AfterManage(s, d);
    ManageRowsTruth(d.(waiting := 0), w.broker, reached, s.open, s.records, s.acknowledged, s.market, s.policy);
    EffectsCompose(w.ledger, q.ledger, d.ledger, s.rows, s.buys);
    EffectsCompose(w.ledger, d.ledger, e.ledger, s.rows + s.buys, s.open);
  }

  lemma LevelAll(l: Ledger, records: seq<Record>)
    requires forall c :: c in l.orders && RecordOf(l.orders[c], records).Some? ==>
               Level(l.orders[c], RecordOf(l.orders[c], records).value)
    ensures AllLevel(l, records)
  {
  }

  lemma CancelsKeep(w: World, s: Snapshot, l: Ledger, reached: set<string>)
    requires PassReady(l, w.broker, reached) && Truthful(s.records, w.broker) && AllLevel(l, s.records)
    requires ListOf(s.buys, ActiveBuyIds(l))
    ensures var d := AfterCancels(w, s, l);
            d.error.None? && PassReady(d.ledger, w.broker, reached) && AllLevel(d.ledger, s.records) && PassEffect(l, d.ledger, s.buys)
            && d.ledger.positions == l.positions
  {
    hide Mirrors, SalesTakenIn, OneLiveSale, CoveredSales, AllLevel, CancelBuyRows;
    forall c | c in s.buys
      ensures c in l.orders && !l.orders[c].status.Terminal() && l.orders[c].brokerId.Some?
    {
      PlacedIn(l, w.broker, c);
    }
    if w.cancelRequested {
      CancelBuyRowsTruth(Desk(l, w.pending, [], 0, 0, 0, None), w.broker, reached, s.buys, s.records, s.acknowledged, s.market.now);
    }
  }

  lemma EffectsCompose(l: Ledger, m: Ledger, n: Ledger, rows: seq<string>, more: seq<string>)
    requires PassEffect(l, m, rows) && PassEffect(m, n, more)
    ensures PassEffect(l, n, rows + more)
  {
  }

  lemma ExitsSame(l: map<string, Order>, m: map<string, Order>, signal: string, symbol: string)
    requires l.Keys == m.Keys
    requires forall c :: c in l ==> m[c].side == l[c].side && m[c].signal == l[c].signal && m[c].symbol == l[c].symbol
    ensures ExitOrders(l, signal, symbol) == ExitOrders(m, signal, symbol)
  {
  }

  lemma BookKept(w: World, v: World)
    requires BrokerBook(w) && v.broker == w.broker && v.calls == w.calls
    requires forall c :: c in w.ledger.orders ==>
               c in v.ledger.orders && SameIdentity(w.ledger.orders[c], v.ledger.orders[c])
    ensures BrokerBook(v)
  {
    forall n | n in v.broker
      ensures BrokerKnown(v, n)
    {
      assert BrokerKnown(w, n);
    }
  }

  lemma SuperviseKeeps(w: World, s: Snapshot)
    requires Safe(w) && Sensible(w, s)
    ensures Safe(AfterSupervise(w, s))
  {
    hide PassReady, AfterSupervise, ExitOrders, AllLevel, OpenQuantity, BrokerBook;
    PassKeeps(w, s, Reached(w));
    var v := AfterSupervise(w, s);
    forall signal, symbol
      ensures ExitOrders(w.ledger.orders, signal, symbol) == ExitOrders(v.ledger.orders, signal, symbol)
    {
      ExitsSame(w.ledger.orders, v.ledger.orders, signal, symbol);
    }
    BookKept(w, v);
  }

  // --------------------------------------------------- the trading loop's steps

  /** Writing a new order row, or a status of an order without a broker number. */
  lemma UnplacedWrite(l: Ledger, broker: map<string, BrokerOrder>, reached: set<string>, c: string, o: Order)
    requires PassReady(l, broker, reached) && c in l.orders && l.orders[c].brokerId == None
    requires SameAccount(l.orders[c], o) && o.brokerId == None && (Unsent(o.status) || o.status == Unknown)
    ensures PassReady(PutOrder(l, c, o), broker, reached)
  {
    hide Mirrors, OpenQuantity, SalesTakenIn;
    PlacedIn(l, broker, c);
    StatusMirrors(l, broker, c, o);
    SalesStay(l, PutOrder(l, c, o));
    forall d | d in reached && d in l.orders
      ensures SaleCovered(PutOrder(l, c, o), d)
    {
      assert SaleCovered(l, d);
    }
  }

  lemma NewOrderMirrors(l: Ledger, broker: map<string, BrokerOrder>, c: string, o: Order)
    requires Mirrors(l, broker) && c !in l.orders && !Blank(c) && StockCode(o.symbol)
    requires o.filled == 0 && o.average == None && o.brokerId == None && o.status == Intent
    ensures Mirrors(PutOrder(l, c, o), broker)
  {
    var n := PutOrder(l, c, o);
    NewOrderKeeps(l, c, o);
    forall d | d in n.orders
      ensures Placed(n, d, broker)
    {
      assert d != c ==> Placed(l, d, broker);
    }
    forall g | g in n.fills
      ensures RestId(g.id, g.client, n.orders[g.client].filled)
    {
      assert RestId(g.id, g.client, l.orders[g.client].filled);
    }
  }

  lemma NewOrderReady(l: Ledger, broker: map<string, BrokerOrder>, reached: set<string>, c: string, o: Order)
    requires PassReady(l, broker, reached) && c !in l.orders && c !in reached && !Blank(c) && StockCode(o.symbol)
    requires o.filled == 0 && o.average == None && o.brokerId == None && o.status == Intent
    requires o.side == Sell ==> !Unresolved(l.orders, o.symbol, Sell)
    ensures PassReady(PutOrder(l, c, o), broker, reached)
  {
    hide Mirrors, OpenQuantity, SalesTakenIn;
    NewOrderMirrors(l, broker, c, o);
    SalesStay(l, PutOrder(l, c, o));
    forall d | d in reached && d in PutOrder(l, c, o).orders
      ensures SaleCovered(PutOrder(l, c, o), d)
    {
      assert SaleCovered(l, d);
    }
  }

  lemma ExitsGrow(orders: map<string, Order>, c: string, o: Order, signal: string, symbol: string)
    requires c !in orders
    ensures ExitOrders(orders[c := o], signal, symbol)
            == ExitOrders(orders, signal, symbol) + if IsExit(o, signal, symbol) then {c} else {}
    ensures |ExitOrders(orders[c := o], signal, symbol)|
            == |ExitOrders(orders, signal, symbol)| + if IsExit(o, signal, symbol) then 1 else 0
  {
    hide IsExit;
    var before := ExitOrders(orders, signal, symbol);
    assert c !in before;
    if IsExit(o, signal, symbol) {
      assert ExitOrders(orders[c := o], signal, symbol) == before + {c};
    } else {
      assert ExitOrders(orders[c := o], signal, symbol) == before;
    }
  }

  lemma ClaimKeeps(w: World, at: int)
    requires Safe(w) && w.trader.Vetted? && Enabled(w, ClaimIt(at))
    ensures Safe(Next(w, ClaimIt(at)))
  {
    hide PassReady, ExitOrders, OpenQuantity, Unresolved, IsExit, BrokerBook, ExitsBounded;
    var t := w.trader.ticket;
    var v := Next(w, ClaimIt(at));
    if v.trader.Claimed? {
      var o := v.ledger.orders[t.client];
      assert Reached(v) == Reached(w);
      NewOrderReady(w.ledger, w.broker, Reached(w), t.client, o);
      ClaimBounded(w, v, o);
      BookKept(w, v);
    } else {
      TraderOnlyKeeps(w, v);
    }
  }

  lemma ClaimBounded(w: World, v: World, o: Order)
    requires ExitsBounded(w) && TraderOk(w) && w.trader.Vetted? && v.maxRequotes == w.maxRequotes
    requires var t := w.trader.ticket;
             && t.client !in w.ledger.orders && v.ledger.orders == w.ledger.orders[t.client := o]
             && o.signal == Some(t.signal) && o.symbol == t.symbol && o.side == t.side
    ensures ExitsBounded(v)
  {
    hide ExitOrders, IsExit, Unresolved;
    forall signal, symbol
      ensures |ExitOrders(v.ledger.orders, signal, symbol)| <= w.maxRequotes + 1
    {
      ExitsGrow(w.ledger.orders, w.trader.ticket.client, o, signal, symbol);
      if IsExit(o, signal, symbol) {
        ExitOf(w.trader.ticket, o, signal, symbol);
      }
    }
  }

  lemma ExitOf(t: Ticket, o: Order, signal: string, symbol: string)
    requires IsExit(o, signal, symbol) && o.signal == Some(t.signal) && o.symbol == t.symbol && o.side == t.side
    ensures t.side == Sell && signal == t.signal && symbol == t.symbol
  {
  }

  /** Steps that rewrite the status of the ticket's own row. */
  lemma TicketWriteKeeps(w: World, v: World, t: Ticket)
    requires Safe(w) && RowOfTicket(w, t) && t.client in v.ledger.orders
    requires v == w.(ledger := PutOrder(w.ledger, t.client, v.ledger.orders[t.client]), trader := v.trader)
    requires SameAccount(w.ledger.orders[t.client], v.ledger.orders[t.client]) && RowOfTicket(v, t)
    requires SameIdentity(w.ledger.orders[t.client], v.ledger.orders[t.client])
    requires Unsent(v.ledger.orders[t.client].status) || v.ledger.orders[t.client].status == Unknown
    requires Reached(v) == Reached(w) && TraderOk(v)
    ensures Safe(v)
  {
    hide PassReady, ExitOrders, OpenQuantity, Unresolved, BrokerBook;
    UnplacedWrite(w.ledger, w.broker, Reached(w), t.client, v.ledger.orders[t.client]);
    forall signal, symbol
      ensures |ExitOrders(v.ledger.orders, signal, symbol)| <= w.maxRequotes + 1
    {
      ExitsSame(w.ledger.orders, v.ledger.orders, signal, symbol);
    }
    BookKept(w, v);
  }

  lemma MarkKeeps(w: World, at: int)
    requires Safe(w) && w.trader.Claimed? && Enabled(w, MarkIt(at))
    ensures Safe(Next(w, MarkIt(at)))
  {
    hide PassReady, ExitOrders, OpenQuantity, Unresolved, BrokerBook, ExitsBounded;
    var t := w.trader.ticket;
    NotBlankClient(w, t.client);
    TicketWriteKeeps(w, Next(w, MarkIt(at)), t);
  }

  lemma NotBlankClient(w: World, c: string)
    requires Safe(w) && c in w.ledger.orders
    ensures !Blank(c)
  {
    PlacedIn(w.ledger, w.broker, c);
  }

  lemma UnknownKeeps(w: World, at: int)
    requires Safe(w) && (w.trader.Refused? || (w.trader.Answered? && w.trader.number.None?)) && Enabled(w, Finish(at))
    ensures Safe(Next(w, Finish(at)))
  {
    hide PassReady, ExitOrders, OpenQuantity, Unresolved, BrokerBook, ExitsBounded;
    var t := w.trader.ticket;
    NotBlankClient(w, t.client);
    assert "order_unknown"[0] == 'o';
    TicketWriteKeeps(w, Next(w, Finish(at)), t);
  }

  /** Passing the guard means the sale is covered from now on. */
  lemma GuardKeeps(w: World, allowed: bool)
    requires Safe(w) && w.trader.Marked? && Enabled(w, Guard(allowed))
    ensures Safe(Next(w, Guard(allowed)))
  {
    hide Mirrors, SalesTakenIn, OneLiveSale, BrokerBook, ExitOrders, OpenQuantity, Unresolved;
    var t := w.trader.ticket;
    var v := Next(w, Guard(allowed));
    PlacedIn(w.ledger, w.broker, t.client);
    forall c | c in Reached(v) && c in v.ledger.orders
      ensures SaleCovered(v.ledger, c)
    {
      if c in w.calls {
        assert c in Reached(w);
      }
    }
    BookKept(w, v);
  }

  lemma CallStep(w: World, number: string, accepted: bool, replied: bool)
    requires Enabled(w, CallBroker(number, accepted, replied))
    ensures w.trader.Cleared? && (accepted ==> number !in w.broker && !Blank(number))
    ensures var t := w.trader.ticket;
            Next(w, CallBroker(number, accepted, replied))
            == w.(calls := w.calls + [t.client], trader := Answered(t, if accepted && replied then Some(number) else None),
                  broker := if accepted then w.broker[number := BrokerOrder(t.client, t.symbol, t.side, t.quantity, 0, 0.0, None)] else w.broker)
  {
    hide GuardPasses, Sensible, AfterSupervise, ExitOrders, OpenQuantity, Unresolved;
  }

  /** Calling the broker adds one call, and one broker order if it accepts. */
  lemma CallKeeps(w: World, number: string, accepted: bool, replied: bool)
    requires Safe(w) && Enabled(w, CallBroker(number, accepted, replied))
    ensures Safe(Next(w, CallBroker(number, accepted, replied)))
  {
    hide Mirrors, SalesTakenIn, OneLiveSale, CoveredSales, ExitOrders, OpenQuantity, Unresolved, Next, Enabled;
    CallStep(w, number, accepted, replied);
    var t := w.trader.ticket;
    var v := Next(w, CallBroker(number, accepted, replied));
    assert Reached(v) == Reached(w);
    if accepted {
      MoreBroker(w.ledger, w.broker, number, v.broker[number]);
    }
    forall n | n in v.broker
      ensures BrokerKnown(v, n)
    {
      assert n in w.broker ==> BrokerKnown(w, n);
    }
  }

  lemma MoreBroker(l: Ledger, broker: map<string, BrokerOrder>, n: string, b: BrokerOrder)
    requires Mirrors(l, broker) && n !in broker && !Blank(n) && b.Sound()
    ensures Mirrors(l, broker[n := b])
  {
    forall c | c in l.orders
      ensures Placed(l, c, broker[n := b])
    {
      assert Placed(l, c, broker);
    }
  }

  /** The broker moving one of its orders on. */
  lemma BrokerMoves(l: Ledger, broker: map<string, BrokerOrder>, n: string, b: BrokerOrder)
    requires Mirrors(l, broker) && n in broker && !broker[n].Finished() && b.Sound()
    requires b.client == broker[n].client && b.symbol == broker[n].symbol && b.side == broker[n].side
    requires b.quantity == broker[n].quantity && broker[n].filled <= b.filled
    requires if b.filled == broker[n].filled then b.notional == broker[n].notional else b.notional > broker[n].notional
    ensures Mirrors(l, broker[n := b])
  {
    forall c | c in l.orders
      ensures Placed(l, c, broker[n := b])
    {
      assert Placed(l, c, broker);
    }
  }

  lemma BrokerStepKeeps(w: World, n: string, b: BrokerOrder)
    requires Safe(w) && n in w.broker && !w.broker[n].Finished() && b.Sound()
    requires b.client == w.broker[n].client && b.symbol == w.broker[n].symbol && b.side == w.broker[n].side
    requires b.quantity == w.broker[n].quantity && w.broker[n].filled <= b.filled
    requires if b.filled == w.broker[n].filled then b.notional == w.broker[n].notional else b.notional > w.broker[n].notional
    ensures Safe(w.(broker := w.broker[n := b]))
  {
    hide Mirrors, SalesTakenIn, OneLiveSale, CoveredSales, ExitOrders, OpenQuantity, Unresolved;
    BrokerMoves(w.ledger, w.broker, n, b);
    var v := w.(broker := w.broker[n := b]);
    assert Reached(v) == Reached(w);
    forall m | m in v.broker
      ensures BrokerKnown(v, m)
    {
      assert BrokerKnown(w, m);
    }
  }

  lemma PositiveMoney(price: Price, quantity: Count)
    ensures Times(price, quantity) > 0.0
  {
  }

  /** Recording the broker's number makes the order a mirror of the broker's. */
  lemma RecordKeeps(w: World, at: int)
    requires Safe(w) && w.trader.Answered? && w.trader.number.Some? && Enabled(w, Finish(at))
    ensures Safe(Next(w, Finish(at)))
  {
    hide PassReady, ExitOrders, OpenQuantity, Unresolved;
    var t, n := w.trader.ticket, w.trader.number.value;
    var v := Next(w, Finish(at));
    assert BrokerKnown(w, n);
    NotBlankClient(w, t.client);
    NumberNotBlank(w, n);
    var o := v.ledger.orders[t.client];
    assert v.ledger == PutOrder(w.ledger, t.client, o);
    PlacingReady(w.ledger, w.broker, Reached(w), t.client, o);
    assert Reached(v) == Reached(w);
    forall m | m in v.broker
      ensures BrokerKnown(v, m)
    {
      assert BrokerKnown(w, m);
    }
    forall signal, symbol
      ensures |ExitOrders(v.ledger.orders, signal, symbol)| <= w.maxRequotes + 1
    {
      ExitsSame(w.ledger.orders, v.ledger.orders, signal, symbol);
    }
  }

  lemma PlacingReady(l: Ledger, broker: map<string, BrokerOrder>, reached: set<string>, c: string, o: Order)
    requires PassReady(l, broker, reached) && c in reached && c in l.orders && l.orders[c].brokerId == None
    requires SameAccount(l.orders[c], o) && !l.orders[c].status.Terminal()
    requires o.brokerId.Some? && o.brokerId.value in broker && o.status == Acknowledged
    requires var b := broker[o.brokerId.value];
             b.client == c && b.symbol == o.symbol && b.side == o.side && b.quantity == o.requested
    ensures PassReady(PutOrder(l, c, o), broker, reached)
  {
    hide Mirrors, SalesTakenIn, OpenQuantity;
    PlacingMirrors(l, broker, c, o);
    SalesStay(l, PutOrder(l, c, o));
    forall d | d in reached && d in PutOrder(l, c, o).orders
      ensures SaleCovered(PutOrder(l, c, o), d)
    {
      assert SaleCovered(l, d);
    }
  }

  lemma NumberNotBlank(w: World, n: string)
    requires Safe(w) && n in w.broker
    ensures !Blank(n) && w.broker[n].Sound()
  {
  }

  lemma PlacingMirrors(l: Ledger, broker: map<string, BrokerOrder>, c: string, o: Order)
    requires Mirrors(l, broker) && c in l.orders && l.orders[c].brokerId == None && SameAccount(l.orders[c], o)
    requires o.brokerId.Some? && o.brokerId.value in broker && o.status == Acknowledged
    requires var b := broker[o.brokerId.value];
             b.client == c && b.symbol == o.symbol && b.side == o.side && b.quantity == o.requested
    ensures Mirrors(PutOrder(l, c, o), broker)
  {
    var n := PutOrder(l, c, o);
    StatusWriteKeeps(l, c, o);
    assert Placed(l, c, broker) && Agrees(l.orders[c], Total(l.fills, SharesOf(c)), Worth(l.fills, MoneyOf(c)));
    forall d | d in n.orders
      ensures Placed(n, d, broker)
    {
      assert Placed(l, d, broker);
    }
    forall g | g in n.fills
      ensures RestId(g.id, g.client, n.orders[g.client].filled)
    {
      assert RestId(g.id, g.client, l.orders[g.client].filled);
    }
  }

  /** Reads, crashes and flags. */
  lemma TraderOnlyKeeps(w: World, v: World)
    requires Safe(w) && v.ledger == w.ledger && v.broker == w.broker && v.calls == w.calls && v.maxRequotes == w.maxRequotes
    requires TraderOk(v) && (v.trader == w.trader || !v.trader.Cleared?)
    ensures Safe(v)
  {
    hide Mirrors, SalesTakenIn, OneLiveSale, ExitOrders, OpenQuantity, Unresolved, BrokerBook;
    BookKept(w, v);
    forall d | d in Reached(v) && d in v.ledger.orders
      ensures SaleCovered(v.ledger, d)
    {
      assert d in Reached(w);
    }
    forall c | c in v.ledger.orders && v.ledger.orders[c].brokerId.Some?
      ensures c in Reached(v)
    {
      assert c in Reached(w);
      if w.trader.Cleared? && c == w.trader.ticket.client {
        assert false;
      }
    }
  }
}
