/** Every unresolved SELL row, whether the broker was called with it or not:
    when it asks for no more than the open position. */
module SaleCoverage {
  import opened Wrappers
  import opened Text
  import opened LedgerTables
  import opened LedgerInvariant
  import opened LedgerRuns
  import opened BrokerRecords
  import opened OrderManagement
  import opened TruthfulBroker
  import opened ReconcileTruth
  import opened PassTruth
  import opened ReconcileTheorems
  import opened ManageTruth
  import opened ServiceRun
  import opened ServiceSafety
  import opened ServiceTheorems
  import opened BuyGuard

  ghost predicate AllCovered(w: World) {
    CoveredSales(w.ledger, w.ledger.orders.Keys)
  }

  /** The step claims no SELL, or one that fits the open position of the moment. */
  ghost predicate ClaimFits(w: World, e: Event)
    requires Enabled(w, e)
  {
    e.ClaimIt? && w.trader.ticket.side == Sell && Next(w, e).trader.Claimed? ==>
      w.trader.ticket.quantity <= OpenQuantity(w.ledger.positions, w.trader.ticket.symbol)
  }

  lemma PassCovers(w: World, e: Event)
    requires Safe(w) && AllCovered(w) && Enabled(w, e) && e.Supervise?
    ensures AllCovered(Next(w, e))
  {
    hide Mirrors, SalesTakenIn, OneLiveSale, Next, Enabled, Sensible, AfterSupervise, BrokerBook, CallLog, TraderOk, ExitsBounded, AllLevel, SaleCovered;
    SuperviseStep(w, e);
    PassKeeps(w, e.snapshot, w.ledger.orders.Keys);
  }

  lemma ClaimCovers(w: World, e: Event)
    requires Safe(w) && AllCovered(w) && Enabled(w, e) && e.ClaimIt?
    ensures AllCovered(Next(w, e)) <==> ClaimFits(w, e)
  {
    hide Mirrors, SalesTakenIn, OneLiveSale, BrokerBook, ExitsBounded, ExitOrders, OpenQuantity, Unresolved, Sensible, AfterSupervise;
    var v, t := Next(w, e), w.trader.ticket;
    if v.trader.Claimed? {
      assert SaleCovered(v.ledger, t.client) <==> ClaimFits(w, e);
      forall c | c in v.ledger.orders && c != t.client
        ensures SaleCovered(v.ledger, c)
      {
        assert SaleCovered(w.ledger, c);
      }
    }
  }

  /** Between two unfinished states of a row nothing changes what it may still sell. */
  ghost predicate Rewrites(l: Ledger, m: Ledger, c: string) {
    m == l || (c in l.orders && c in m.orders && m == PutOrder(l, c, m.orders[c]) && SameAccount(l.orders[c], m.orders[c])
               && !m.orders[c].status.Terminal())
  }

  lemma RewriteCovers(l: Ledger, m: Ledger, c: string)
    requires CoveredSales(l, l.orders.Keys) && c in l.orders && !l.orders[c].status.Terminal() && Rewrites(l, m, c)
    ensures CoveredSales(m, m.orders.Keys)
  {
    hide OpenQuantity;
    forall d | d in m.orders
      ensures SaleCovered(m, d)
    {
      assert SaleCovered(l, d);
    }
  }

  lemma TicketRewrites(l: Ledger, c: string, number: string, at: int)
    requires c in l.orders
    ensures Rewrites(l, After(l, MarkSubmitting(l, c, at)), c)
    ensures Rewrites(l, After(l, RecordSubmission(l, c, number, at)), c)
    ensures Rewrites(l, After(l, MarkUnknown(l, c, Some("order_unknown"), at)), c)
  {
    hide Blank;
  }

  lemma MarkNext(w: World, e: Event)
    requires TraderOk(w) && Enabled(w, e) && e.MarkIt?
    ensures w.trader.Claimed? && w.trader.ticket.client in w.ledger.orders
    ensures w.ledger.orders[w.trader.ticket.client].status == Intent
    ensures Next(w, e).ledger == After(w.ledger, MarkSubmitting(w.ledger, w.trader.ticket.client, e.at))
  {
    hide ExitOrders, OpenQuantity, Unresolved, GuardPasses, Sensible, AfterSupervise, MarkSubmitting;
  }

  lemma TicketUnsent(w: World)
    requires TraderOk(w) && (w.trader.Answered? || w.trader.Refused?)
    ensures w.trader.ticket.client in w.ledger.orders && w.ledger.orders[w.trader.ticket.client].status == Submitting
  {
    hide ExitOrders, Unresolved;
  }

  /** Marking and recording the ticket's row leave what it may still sell. */
  lemma WriteCovers(w: World, e: Event)
    requires Safe(w) && AllCovered(w) && Enabled(w, e) && (e.MarkIt? || e.Finish?)
    ensures AllCovered(Next(w, e))
  {
    hide Safe, TraderOk, CoveredSales, Next, Enabled, Rewrites, MarkSubmitting, RecordSubmission, MarkUnknown;
    SafeLoop(w);
    if e.MarkIt? {
      MarkNext(w, e);
    } else {
      FinishNext(w, e);
      TicketUnsent(w);
    }
    var c, number := w.trader.ticket.client, if w.trader.Answered? && w.trader.number.Some? then w.trader.number.value else "";
    TicketRewrites(w.ledger, c, number, e.at);
    RewriteCovers(w.ledger, Next(w, e).ledger, c);
  }

  lemma StepCoversIff(w: World, e: Event)
    requires Safe(w) && AllCovered(w) && Enabled(w, e)
    ensures AllCovered(Next(w, e)) <==> ClaimFits(w, e)
  {
    hide Safe, AllCovered, Enabled, Next;
    if e.Supervise? {
      PassCovers(w, e);
    } else if e.ClaimIt? {
      ClaimCovers(w, e);
    } else if e.MarkIt? || e.Finish? {
      WriteCovers(w, e);
    } else {
      LedgerStands(w, e);
      SameCover(w, Next(w, e));
    }
  }

  lemma SameCover(w: World, v: World)
    requires v.ledger == w.ledger
    ensures AllCovered(v) <==> AllCovered(w)
  {
  }

  /** Along every run each unresolved SELL row, called or not, asks for no more than
      the open position if and only if each SELL fitted the position when claimed. */
  lemma {:induction false} SalesCoveredIff(ws: seq<World>, es: seq<Event>, n: nat)
    requires Run(ws, es) && n <= |es|
    ensures (forall i :: 0 <= i <= n ==> AllCovered(ws[i])) <==> (forall i :: 0 <= i < n ==> ClaimFits(ws[i], es[i]))
  {
    hide Safe, AllCovered, Enabled, Next, ClaimFits, Initial;
    if n == 0 {
      NothingToCover(ws[0]);
    } else {
      SalesCoveredIff(ws, es, n - 1);
      EveryRunSafe(ws, es, n - 1);
      assert Enabled(ws[n - 1], es[n - 1]) && ws[n - 1 + 1] == Next(ws[n - 1], es[n - 1]);
      if AllCovered(ws[n - 1]) {
        StepCoversIff(ws[n - 1], es[n - 1]);
      }
    }
  }

  lemma NothingToCover(w: World)
    requires w == Initial(w.ledger.decisions, w.maxRequotes)
    ensures AllCovered(w)
  {
  }

  // ---------------------------------------- when nothing comes in between

  /** What the trading loop has read or vetted still fits the open position. */
  ghost predicate StillFits(w: World) {
    && (w.trader.SawPosition? ==> w.trader.quantity <= OpenQuantity(w.ledger.positions, w.trader.symbol))
    && (w.trader.Vetted? && w.trader.ticket.side == Sell ==>
          w.trader.ticket.quantity <= OpenQuantity(w.ledger.positions, w.trader.ticket.symbol))
  }

  /** The trading loop is between reading a position and claiming its exit. */
  predicate Leaving(t: Trader) {
    t.SawPosition? || (t.Vetted? && t.ticket.side == Sell)
  }

  lemma RowWithinOpen(w: World, symbol: string)
    requires Safe(w) && FirstOpen(w.ledger.positions, symbol) != -1
    ensures w.ledger.positions[FirstOpen(w.ledger.positions, symbol)].quantity == OpenQuantity(w.ledger.positions, symbol)
  {
    hide SalesTakenIn, OneLiveSale, CoveredSales, BrokerBook, CallLog, TraderOk, ExitsBounded, OpenQuantity, FirstOpen;
    OpenQuantityIsRow(w.ledger.positions, symbol);
  }

  lemma FitsOn(w: World, e: Event)
    requires Safe(w) && StillFits(w) && Enabled(w, e) && (e.Supervise? ==> !Leaving(w.trader))
    ensures StillFits(Next(w, e))
  {
    hide Safe, Sensible, AfterSupervise, OpenQuantity, ExitOrders, Unresolved, GuardPasses, MarkSubmitting, RecordSubmission, MarkUnknown, FirstOpen, PutOrder;
    if e.Supervise? {
      SameLoop(w, e.snapshot);
    } else if e.ReadPosition? {
      RowWithinOpen(w, e.symbol);
    }
  }

  /** In every state of a run in which no supervisor pass has come between a read
      of a position and the claim of its exit, every unresolved SELL row asks for
      no more than the open position, called or not. */
  lemma {:induction false} UninterruptedSalesCovered(ws: seq<World>, es: seq<Event>, i: nat)
    requires Run(ws, es) && i < |ws| && forall k :: 0 <= k < i && es[k].Supervise? ==> !Leaving(ws[k].trader)
    ensures AllCovered(ws[i]) && StillFits(ws[i])
  {
    hide Safe, AllCovered, Enabled, Next, StillFits, Initial, Leaving, ClaimFits;
    if i == 0 {
      NothingToCover(ws[0]);
      NothingRead(ws[0]);
    } else {
      UninterruptedSalesCovered(ws, es, i - 1);
      EveryRunSafe(ws, es, i - 1);
      var w, e := ws[i - 1], es[i - 1];
      assert Enabled(w, e) && ws[i - 1 + 1] == Next(w, e);
      FitsOn(w, e);
      ClaimsWhatFits(w, e);
      StepCoversIff(w, e);
    }
  }

  lemma NothingRead(w: World)
    requires w == Initial(w.ledger.decisions, w.maxRequotes)
    ensures StillFits(w)
  {
  }

  lemma ClaimsWhatFits(w: World, e: Event)
    requires Enabled(w, e) && StillFits(w)
    ensures ClaimFits(w, e)
  {
    hide Next, Sensible;
  }

  /** An exit is vetted, for the whole of the quantity read, if and only if every
      SELL row of the symbol is finished and the position's signal has had no more
      than `maxRequotes` SELL rows; too many raise both flags. */
  lemma VettedIff(w: World, client: string, price: Price)
    requires w.trader.SawPosition? && w.trader.quantity > 0
    ensures var (rows, t, v) := (w.ledger.orders, w.trader, Next(w, VetExit(client, price)));
            var settled := forall c :: c in rows && rows[c].side == Sell && rows[c].symbol == t.symbol ==>
                             rows[c].status in {Filled, Cancelled, Rejected};
            var attempts := set c | c in rows && rows[c].side == Sell && rows[c].symbol == t.symbol && rows[c].signal == Some(t.signal);
            && (v.trader.Vetted? <==> settled && |attempts| <= w.maxRequotes)
            && (v.trader.Vetted? ==> v == w.(trader := Vetted(Ticket(client, t.signal, t.symbol, Sell, t.quantity, price))))
            && (!v.trader.Vetted? ==>
                  v == w.(trader := Idle, review := w.review || (settled && |attempts| > w.maxRequotes),
                          blockEntries := w.blockEntries || (settled && |attempts| > w.maxRequotes)))
  {
    var (rows, t) := (w.ledger.orders, w.trader);
    assert ExitOrders(rows, t.signal, t.symbol)
        == set c | c in rows && rows[c].side == Sell && rows[c].symbol == t.symbol && rows[c].signal == Some(t.signal);
    if c :| c in rows && rows[c].side == Sell && rows[c].symbol == t.symbol && rows[c].status !in {Filled, Cancelled, Rejected} {
      assert Unresolved(rows, t.symbol, Sell);
    }
  }
}
