/** An exit order left without a broker number, INTENT or SUBMITTING by a crash or
    UNKNOWN by a guard that refused or a broker that did not answer: no pass ever
    resolves it, and it bars every later exit of its symbol. */
module StrandedExit {
  import opened Wrappers
  import opened Text
  import opened LedgerTables
  import opened LedgerRuns
  import opened BrokerRecords
  import opened Reconciliation
  import opened OrderManagement
  import opened TruthfulBroker
  import opened ReconcileTruth
  import opened PassTruth
  import opened ReconcileTheorems
  import opened ManageTruth
  import opened ServiceRun
  import opened ServiceSafety
  import opened ServiceTheorems
  import opened BuyGuard
  import opened SaleCoverage
  import opened UncoveredExit

  /** A SELL row without a broker number that nobody is working on. */
  ghost predicate Stuck(w: World, c: string) {
    && c in w.ledger.orders && w.ledger.orders[c].side == Sell && w.ledger.orders[c].brokerId == None && !Holds(w.trader, c)
  }

  /** The trading loop has a SELL of the symbol in hand, vetted or further on. */
  predicate Selling(t: Trader, symbol: string) {
    !t.Idle? && !t.SawPosition? && t.ticket.side == Sell && t.ticket.symbol == symbol
  }

  /** Every other SELL row of the symbol is finished, and none is being placed. */
  lemma NoOtherSale(w: World, c: string)
    requires Safe(w) && Stuck(w, c)
    ensures !Selling(w.trader, w.ledger.orders[c].symbol)
    ensures Unsent(w.ledger.orders[c].status) || w.ledger.orders[c].status == Unknown
    ensures Unresolved(w.ledger.orders, w.ledger.orders[c].symbol, Sell)
    ensures forall d :: d in w.ledger.orders && d != c && w.ledger.orders[d].side == Sell && w.ledger.orders[d].symbol == w.ledger.orders[c].symbol ==>
              w.ledger.orders[d].status.Terminal()
  {
    hide Mirrors, SalesTakenIn, CoveredSales, BrokerBook, CallLog, ExitsBounded, ExitOrders;
    PlacedIn(w.ledger, w.broker, c);
    assert LiveSale(w.ledger.orders[c]);
  }

  // ----------------------------------------------------- the open position stays

  /** No sale of the symbol that a pass could find shares of. */
  ghost predicate NothingSelling(orders: map<string, Order>, symbol: string) {
    forall d :: d in orders && orders[d].side == Sell && orders[d].symbol == symbol ==>
      orders[d].status.Terminal() || orders[d].brokerId == None
  }

  lemma RowNeverShrinks(p: Progress, q: Progress, broker: map<string, BrokerOrder>, c: string, records: seq<Record>, now: int, symbol: string)
    requires c in p.ledger.orders && Truthful(records, broker) && RowResult(p, q, broker, c, records, now)
    requires NothingSelling(p.ledger.orders, symbol)
    ensures OpenQuantity(q.ledger.positions, symbol) >= OpenQuantity(p.ledger.positions, symbol)
  {
    hide Mirrors, SalesTakenIn, OpenQuantity, Unapplied, FindRecord;
    if RecordOf(p.ledger.orders[c], records).Some? {
      assert SoldSince(p.ledger, q.ledger, c, symbol) == 0;
    }
  }

  lemma SellingStays(l: Ledger, m: Ledger, rows: seq<string>, symbol: string)
    requires PassEffect(l, m, rows) && NothingSelling(l.orders, symbol)
    ensures NothingSelling(m.orders, symbol)
  {
  }

  lemma {:induction false} RowsNeverShrink(p: Progress, broker: map<string, BrokerOrder>, reached: set<string>, rows: seq<string>,
                                           records: seq<Record>, now: int, symbol: string)
    requires p.error.None? && PassReady(p.ledger, broker, reached) && Truthful(records, broker)
    requires NoRepeats(rows) && forall c :: c in rows ==> c in p.ledger.orders
    requires NothingSelling(p.ledger.orders, symbol)
    ensures OpenQuantity(ReconcileRows(p, p.ledger.orders, rows, records, now).ledger.positions, symbol)
            >= OpenQuantity(p.ledger.positions, symbol)
  {
    hide Mirrors, Dealt, SalesTakenIn, OneLiveSale, ReconcileRow, RowResult, NothingSelling, OpenQuantity;
    if rows != [] {
      var front, c := rows[..|rows| - 1], rows[|rows| - 1];
      assert rows == front + [c];
      assert c in rows && c !in front && forall d :: d in front ==> d in rows;
      RowsNeverShrink(p, broker, reached, front, records, now, symbol);
      RowsTruth(p, broker, reached, front, records, now);
      var q := ReconcileRows(p, p.ledger.orders, front, records, now);
      assert q.ledger.orders[c] == p.ledger.orders[c];
      RowTruth(q, broker, c, records, now);
      SellingStays(p.ledger, q.ledger, front, symbol);
      RowNeverShrinks(q, ReconcileRow(q, c, q.ledger.orders[c], records, now), broker, c, records, now, symbol);
    }
  }

  lemma PassNeverShrinks(w: World, s: Snapshot, symbol: string)
    requires Safe(w) && Sensible(w, s) && NothingSelling(w.ledger.orders, symbol)
    ensures OpenQuantity(AfterSupervise(w, s).ledger.positions, symbol) >= OpenQuantity(w.ledger.positions, symbol)
  {
    hide PassReady, Truthful, NothingSelling, OpenQuantity, AllLevel, AfterSupervise, AfterCancels, AfterManage, ReconcileRows, BrokerBook, CallLog, TraderOk, ExitsBounded;
    PassKeeps(w, s, Reached(w));
    SelectedExist(w.ledger, s.rows);
    RowsNeverShrink(Progress(w.ledger, NOTHING_YET, None), w.broker, Reached(w), s.rows, s.records, s.market.now, symbol);
  }

  lemma PassLeavesNumberless(w: World, s: Snapshot, c: string)
    requires Safe(w) && Sensible(w, s) && c in w.ledger.orders && w.ledger.orders[c].brokerId == None
    ensures c in AfterSupervise(w, s).ledger.orders && AfterSupervise(w, s).ledger.orders[c] == w.ledger.orders[c]
  {
    hide PassReady, AfterSupervise, AllLevel, BrokerBook, ExitsBounded, TraderOk, CallLog, Sensible;
    PassKeeps(w, s, Reached(w));
  }

  /** Between passes no position moves. */
  lemma PositionsStand(w: World, e: Event)
    requires TraderOk(w) && Enabled(w, e) && !e.Supervise?
    ensures Next(w, e).ledger.positions == w.ledger.positions
  {
    hide Next, Enabled, TraderOk, MarkSubmitting, RecordSubmission, MarkUnknown;
    if e.ClaimIt? {
      ClaimPositions(w, e);
    } else if e.MarkIt? {
      MarkNext(w, e);
      TicketRewrites(w.ledger, w.trader.ticket.client, "", e.at);
    } else if e.Finish? {
      FinishNext(w, e);
      TicketRewrites(w.ledger, w.trader.ticket.client,
                     if w.trader.Answered? && w.trader.number.Some? then w.trader.number.value else "", e.at);
    } else {
      LedgerStands(w, e);
    }
  }

  lemma ClaimPositions(w: World, e: Event)
    requires Enabled(w, e) && e.ClaimIt?
    ensures Next(w, e).ledger.positions == w.ledger.positions
  {
    hide Sensible, AfterSupervise, OpenQuantity, ExitOrders, Unresolved, GuardPasses;
  }

  // ------------------------------------------------------------------ the runs

  lemma StuckOn(w: World, e: Event, c: string)
    requires Safe(w) && Stuck(w, c) && Enabled(w, e)
    ensures Stuck(Next(w, e), c) && Next(w, e).ledger.orders[c] == w.ledger.orders[c]
    ensures OpenQuantity(Next(w, e).ledger.positions, w.ledger.orders[c].symbol)
            >= OpenQuantity(w.ledger.positions, w.ledger.orders[c].symbol)
  {
    hide Safe, Next, Enabled, Unresolved, OpenQuantity, AfterSupervise, Sensible;
    NoOtherSale(w, c);
    if e.Supervise? {
      SuperviseStep(w, e);
      SameLoop(w, e.snapshot);
      PassLeavesNumberless(w, e.snapshot, c);
      PassNeverShrinks(w, e.snapshot, w.ledger.orders[c].symbol);
    } else {
      SafeLoop(w);
      PlainStep(w, e, c);
      NobodyTakes(w, e, c);
      PositionsStand(w, e);
    }
  }

  /** The row keeps the trading loop from selling the symbol. */
  lemma VettingStops(w: World, e: Event, symbol: string)
    requires Enabled(w, e) && e.VetExit? && w.trader.symbol == symbol && Unresolved(w.ledger.orders, symbol, Sell)
    ensures Next(w, e).trader.Idle?
  {
    hide ExitOrders, Sensible, Unresolved;
  }

  lemma PlacingNeeds(w: World, e: Event)
    requires Enabled(w, e) && (e.ClaimIt? || e.CallBroker?)
    ensures !w.trader.Idle? && !w.trader.SawPosition?
  {
    hide Sensible;
  }

  /** From the moment a SELL row is left without a broker number and with nobody
      working on it, and for the rest of every run: the row stays as it is, no exit of its
      symbol is vetted, claimed or sent to the broker, and the symbol's open
      position never gets smaller. */
  lemma {:induction false} StrandedSaleBlocksExits(ws: seq<World>, es: seq<Event>, i: nat, j: nat, c: string)
    requires Run(ws, es) && i <= j < |ws| && Stuck(ws[i], c)
    ensures Stuck(ws[j], c) && ws[j].ledger.orders[c] == ws[i].ledger.orders[c]
    ensures OpenQuantity(ws[j].ledger.positions, ws[i].ledger.orders[c].symbol)
            >= OpenQuantity(ws[i].ledger.positions, ws[i].ledger.orders[c].symbol)
    ensures j < |es| && es[j].VetExit? && ws[j].trader.SawPosition? && ws[j].trader.symbol == ws[i].ledger.orders[c].symbol ==>
              ws[j + 1].trader.Idle?
    ensures j < |es| && (es[j].ClaimIt? || es[j].CallBroker?) ==>
              !ws[j].trader.Idle? && !ws[j].trader.SawPosition? && !Selling(ws[j].trader, ws[i].ledger.orders[c].symbol)
    decreases j
  {
    hide Safe, Next, Enabled, Stuck, Selling, Unresolved, OpenQuantity, Initial;
    assert c in ws[i].ledger.orders by { StuckRow(ws[i], c); }
    if i < j {
      StrandedSaleBlocksExits(ws, es, i, j - 1, c);
      StuckRow(ws[j - 1], c);
      EveryRunSafe(ws, es, j - 1);
      assert Enabled(ws[j - 1], es[j - 1]) && ws[j - 1 + 1] == Next(ws[j - 1], es[j - 1]);
      StuckOn(ws[j - 1], es[j - 1], c);
    }
    StuckRow(ws[j], c);
    EveryRunSafe(ws, es, j);
    NoOtherSale(ws[j], c);
    if j < |es| {
      assert Enabled(ws[j], es[j]) && ws[j + 1] == Next(ws[j], es[j]);
      if es[j].VetExit? && ws[j].trader.SawPosition? && ws[j].trader.symbol == ws[i].ledger.orders[c].symbol {
        VettingStops(ws[j], es[j], ws[i].ledger.orders[c].symbol);
      }
      if es[j].ClaimIt? || es[j].CallBroker? {
        PlacingNeeds(ws[j], es[j]);
      }
    }
  }

  lemma StuckRow(w: World, c: string)
    requires Stuck(w, c)
    ensures c in w.ledger.orders
  {
  }

  // --------------------------------------------------------------- one such run

  lemma Crashes(w: World)
    ensures Enabled(w, Crash) && Next(w, Crash) == w.(trader := Idle)
  {
    hide Sensible, AfterSupervise;
  }

  /** Two shares are held, the service dies after claiming their exit, and from
      then on they cannot be sold. */
  lemma CrashStrandsExit() returns (ws: seq<World>, es: seq<Event>)
    ensures Run(ws, es) && es != [] && es[|es| - 1].Crash? && Stuck(ws[|es|], "b")
    ensures var w := ws[|es|];
            w.ledger.orders["b"].symbol == "005930" && OpenQuantity(w.ledger.positions, "005930") == 2
  {
    hide Next, Enabled, ExitOrders;
    var entered, entering := Entering();
    var w := entered[|entering|];
    assert "2"[0] == '2' && "b"[0] == 'b' && "s"[0] == 's';
    assert ExitOrders(w.ledger.orders, "s", "005930") == {} && OpenQuantity([OpenedPosition()], "005930") == 2 by { NoExitsYet(w); }
    ReadsAndVets(w, "s", "b");
    var w1 := Next(w, ReadPosition("005930"));
    var w2 := Next(w1, VetExit("b", 10.0));
    TicketClaimed(w2, EXIT, "2");
    var w3 := Next(w2, ClaimIt(0));
    Crashes(w3);
    var tail, last := [w, w1, w2, w3, Next(w3, Crash)], [ReadPosition("005930"), VetExit("b", 10.0), ClaimIt(0), Crash];
    assert Steps(tail, last);
    StepsJoin(entered, entering, tail, last);
    ws, es := entered + tail[1..], entering + last;
    StepsAreRun(ws, es);
  }

  lemma NoExitsYet(w: World)
    requires Entered(w)
    ensures ExitOrders(w.ledger.orders, "s", "005930") == {} && OpenQuantity([OpenedPosition()], "005930") == 2
  {
  }
}
