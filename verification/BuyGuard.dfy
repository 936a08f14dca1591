/** Entries: through the last-moment guard at most one BUY the broker was called
    with is unresolved, unless the service dies between the broker's answer and
    the row that records it. */
module BuyGuard {
  import opened Wrappers
  import opened Text
  import opened LedgerTables
  import opened LedgerRuns
  import opened BrokerRecords
  import opened Reconciliation
  import opened OrderManagement
  import opened TruthfulBroker
  import opened ReconcileTruth
  import opened PassTruth
  import opened ReconcileTheorems
  import opened ManageTruth
  import opened ServiceRun
  import opened ServiceSafety
  import opened ServiceTheorems

  predicate LiveBuy(o: Order) {
    o.side == Buy && !o.status.Terminal()
  }

  /** At most one BUY the broker was called with is not finished. */
  ghost predicate OneLiveBuy(w: World) {
    forall c, d :: (c in w.calls && d in w.calls && c in w.ledger.orders && d in w.ledger.orders
                    && LiveBuy(w.ledger.orders[c]) && LiveBuy(w.ledger.orders[d])) ==> c == d
  }

  /** A BUY the broker was called with whose row still says it was not. */
  ghost predicate Stranded(w: World, c: string) {
    c in w.calls && c in w.ledger.orders && LiveBuy(w.ledger.orders[c]) && Unsent(w.ledger.orders[c].status)
  }

  /** While a BUY is cleared for the broker, no other BUY is open with a row that shows it. */
  ghost predicate GuardHolds(w: World) {
    w.trader.Cleared? && w.trader.ticket.side == Buy ==>
      forall c :: c in w.ledger.orders && c != w.trader.ticket.client && w.ledger.orders[c].side == Buy ==>
        Unsent(w.ledger.orders[c].status) || w.ledger.orders[c].status.Terminal()
  }

  /** Calling the broker for a cleared BUY leaves it the only live one exactly
      when no earlier call was left stranded. */
  lemma SecondBuyIffStranded(w: World, number: string, accepted: bool, replied: bool)
    requires Safe(w) && GuardHolds(w) && Enabled(w, CallBroker(number, accepted, replied)) && w.trader.ticket.side == Buy
    ensures OneLiveBuy(Next(w, CallBroker(number, accepted, replied))) <==> !exists c :: Stranded(w, c)
  {
    hide PassReady, BrokerBook, ExitsBounded;
    var v, t := Next(w, CallBroker(number, accepted, replied)), w.trader.ticket;
    assert t.client in v.calls && LiveBuy(v.ledger.orders[t.client]);
    if c :| Stranded(w, c) {
      assert c in v.calls && c != t.client;
    } else {
      forall c | c in v.calls && c in v.ledger.orders && LiveBuy(v.ledger.orders[c])
        ensures c == t.client
      {
        assert !Stranded(w, c);
      }
    }
  }

  /** The same on the rows alone: the order now being placed is the only
      unresolved BUY row exactly when no other BUY row is INTENT or SUBMITTING. */
  lemma OnlyLiveRowIffNoneUnsent(w: World, number: string, accepted: bool, replied: bool)
    requires Safe(w) && GuardHolds(w) && Enabled(w, CallBroker(number, accepted, replied)) && w.trader.ticket.side == Buy
    ensures var rows, c := Next(w, CallBroker(number, accepted, replied)).ledger.orders, w.trader.ticket.client;
            && c in rows && LiveBuy(rows[c])
            && ((forall d :: d in rows && LiveBuy(rows[d]) ==> d == c)
                <==> !exists d :: d in rows && d != c && rows[d].side == Buy && Unsent(rows[d].status))
  {
    hide PassReady, BrokerBook, ExitsBounded, Next, Enabled;
    CallStep(w, number, accepted, replied);
    var rows, c := w.ledger.orders, w.trader.ticket.client;
    if d :| d in rows && d != c && rows[d].side == Buy && Unsent(rows[d].status) {
      assert LiveBuy(rows[d]);
    }
  }

  /** When the guard lets an entry through: nothing else forbids it, both flags are
      down, and no BUY row is one the broker may still work on; SELL rows and BUY
      rows that are INTENT or SUBMITTING make no difference. */
  lemma EntryLetThroughIff(w: World, allowed: bool)
    requires w.trader.Marked? && w.trader.ticket.side == Buy
    ensures Next(w, Guard(allowed)).trader == Cleared(w.trader.ticket) <==>
              && allowed && !w.review && !w.blockEntries
              && forall c :: c in w.ledger.orders && w.ledger.orders[c].side == Buy ==>
                   w.ledger.orders[c].status in {Intent, Submitting, Filled, Cancelled, Rejected}
    ensures Next(w, Guard(allowed)).trader == Cleared(w.trader.ticket) || Next(w, Guard(allowed)).trader == Refused(w.trader.ticket)
  {
    if c :| c in w.ledger.orders && w.ledger.orders[c].side == Buy
            && w.ledger.orders[c].status !in {Intent, Submitting, Filled, Cancelled, Rejected} {
      assert SeenByGuard(w.ledger.orders[c]);
    }
  }

  /** And an exit: nothing else forbids it, and the open position covers it, whatever the flags say. */
  lemma ExitLetThroughIff(w: World, allowed: bool)
    requires w.trader.Marked? && w.trader.ticket.side == Sell
    ensures Next(w, Guard(allowed)).trader == Cleared(w.trader.ticket) <==>
              allowed && 0 < OpenQuantity(w.ledger.positions, w.trader.ticket.symbol)
              && w.trader.ticket.quantity <= OpenQuantity(w.ledger.positions, w.trader.ticket.symbol)
    ensures Next(w, Guard(allowed)).trader == Cleared(w.trader.ticket) || Next(w, Guard(allowed)).trader == Refused(w.trader.ticket)
  {
    hide OpenQuantity;
  }

  // ------------------------------------------------------ runs without the gap

  /** The rows of the BUYs called so far say so, but for the one being answered. */
  ghost predicate NoneStranded(w: World) {
    forall c :: Stranded(w, c) ==> w.trader.Answered? && w.trader.ticket.client == c
  }

  /** The service dies between the broker's answer to a BUY and its record. */
  predicate LosesEntry(w: World, e: Event) {
    e.Crash? && w.trader.Answered? && w.trader.ticket.side == Buy
  }

  lemma PassLeavesUnplaced(w: World, s: Snapshot, c: string)
    requires Safe(w) && Sensible(w, s) && c in w.ledger.orders
    ensures var v := AfterSupervise(w, s);
            && v == w.(ledger := v.ledger, pending := v.pending, cancelRequested := false, review := v.review, blockEntries := v.blockEntries)
            && v.ledger.orders.Keys == w.ledger.orders.Keys
            && v.ledger.orders[c].side == w.ledger.orders[c].side
            && (w.ledger.orders[c].status.Terminal() ==> v.ledger.orders[c].status.Terminal())
            && (Unsent(w.ledger.orders[c].status) ==> v.ledger.orders[c] == w.ledger.orders[c])
            && (Unsent(v.ledger.orders[c].status) ==> v.ledger.orders[c] == w.ledger.orders[c])
  {
    hide PassReady, AfterSupervise, ExitOrders, AllLevel, OpenQuantity, BrokerBook, ExitsBounded, TraderOk, CallLog, Sensible;
    PassKeeps(w, s, Reached(w));
    UnsentIsUnplaced(w, w.ledger, c);
    UnsentIsUnplaced(w, AfterSupervise(w, s).ledger, c);
  }

  lemma UnsentIsUnplaced(w: World, l: Ledger, c: string)
    requires PassReady(l, w.broker, Reached(w)) && c in l.orders
    ensures Unsent(l.orders[c].status) ==> l.orders[c].brokerId == None
  {
    hide Mirrors, SalesTakenIn, OneLiveSale, CoveredSales;
    PlacedIn(l, w.broker, c);
  }

  /** The trading loop is placing this order. */
  ghost predicate Holds(t: Trader, c: string) {
    (t.Claimed? || t.Marked? || t.Refused? || t.Cleared? || t.Answered?) && t.ticket.client == c
  }

  lemma LedgerStands(w: World, e: Event)
    requires Enabled(w, e) && !e.Supervise? && !e.ClaimIt? && !e.MarkIt? && !e.Finish?
    ensures Next(w, e).ledger == w.ledger
  {
    hide ExitOrders, OpenQuantity, Unresolved, GuardPasses, Sensible, AfterSupervise;
  }

  lemma ClaimAdds(w: World, e: Event, c: string)
    requires Enabled(w, e) && e.ClaimIt? && c in w.ledger.orders
    ensures c in Next(w, e).ledger.orders && Next(w, e).ledger.orders[c] == w.ledger.orders[c]
  {
    hide ExitOrders, OpenQuantity, Unresolved, GuardPasses, Sensible, AfterSupervise;
  }

  /** What rewriting a row of the trading loop's order does to the rows. */
  ghost predicate TicketWrite(w: World, e: Event, v: World, c: string)
    requires c in w.ledger.orders && c in v.ledger.orders
  {
    var o, p := w.ledger.orders[c], v.ledger.orders[c];
    && p.side == o.side
    && (p != o ==>
          && o.brokerId == None && (e.MarkIt? || e.Finish?) && Holds(w.trader, c)
          && (if e.MarkIt? then p.status == Submitting else !Unsent(p.status) && !p.status.Terminal()))
  }

  lemma MarkWrites(w: World, e: Event, c: string)
    requires TraderOk(w) && Enabled(w, e) && e.MarkIt? && c in w.ledger.orders
    ensures c in Next(w, e).ledger.orders && TicketWrite(w, e, Next(w, e), c)
  {
    hide ExitOrders, OpenQuantity, Unresolved, GuardPasses, Sensible, AfterSupervise;
  }

  lemma FinishMoves(w: World, e: Event, c: string)
    requires TraderOk(w) && Enabled(w, e) && e.Finish? && c in w.ledger.orders
    ensures c in Next(w, e).ledger.orders && TicketWrite(w, e, Next(w, e), c)
  {
    hide TraderOk, Next, Enabled;
    FinishNext(w, e);
    var t := w.trader.ticket;
    if w.trader.Answered? && w.trader.number.Some? {
      NumberWrites(w.ledger, t.client, w.trader.number.value, e.at);
    } else {
      UnknownWrites(w.ledger, t.client, e.at);
    }
  }

  /** The finishing step works on the ticket's unplaced row. */
  lemma FinishNext(w: World, e: Event)
    requires TraderOk(w) && Enabled(w, e) && e.Finish?
    ensures (w.trader.Answered? || w.trader.Refused?) && w.trader.ticket.client in w.ledger.orders
    ensures w.ledger.orders[w.trader.ticket.client].brokerId == None
    ensures Next(w, e).ledger
            == if w.trader.Answered? && w.trader.number.Some?
               then After(w.ledger, RecordSubmission(w.ledger, w.trader.ticket.client, w.trader.number.value, e.at))
               else After(w.ledger, MarkUnknown(w.ledger, w.trader.ticket.client, Some("order_unknown"), e.at))
  {
    hide ExitOrders, OpenQuantity, Unresolved, GuardPasses, Sensible, AfterSupervise, RecordSubmission, MarkUnknown;
  }

  lemma NumberWrites(l: Ledger, c: string, number: string, at: int)
    requires c in l.orders
    ensures var m := After(l, RecordSubmission(l, c, number, at));
            && c in m.orders && (m == l || (m == PutOrder(l, c, m.orders[c]) && m.orders[c].status == Acknowledged
                                            && m.orders[c].side == l.orders[c].side))
  {
  }

  lemma UnknownWrites(l: Ledger, c: string, at: int)
    requires c in l.orders
    ensures var m := After(l, MarkUnknown(l, c, Some("order_unknown"), at));
            && c in m.orders && (m == l || (m == PutOrder(l, c, m.orders[c]) && m.orders[c].status == Unknown
                                            && m.orders[c].side == l.orders[c].side))
  {
  }

  /** What a step other than a pass may do to a row. */
  lemma PlainStep(w: World, e: Event, c: string)
    requires TraderOk(w) && Enabled(w, e) && !e.Supervise? && c in w.ledger.orders
    ensures c in Next(w, e).ledger.orders && TicketWrite(w, e, Next(w, e), c)
  {
    hide Next, Enabled, TraderOk;
    if e.ClaimIt? {
      ClaimAdds(w, e, c);
    } else if e.MarkIt? {
      MarkWrites(w, e, c);
    } else if e.Finish? {
      FinishMoves(w, e, c);
    } else {
      LedgerStands(w, e);
    }
  }

  /** Recording the answer moves the row on. */
  lemma FinishWrites(w: World, at: int)
    requires Safe(w) && Enabled(w, Finish(at))
    ensures var v := Next(w, Finish(at));
            w.trader.ticket.client in v.ledger.orders && !Unsent(v.ledger.orders[w.trader.ticket.client].status)
  {
    hide PassReady, ExitOrders, OpenQuantity, Unresolved, ExitsBounded, BrokerBook;
    NotBlankClient(w, w.trader.ticket.client);
    assert "order_unknown"[0] == 'o';
    if w.trader.Answered? && w.trader.number.Some? {
      NumberNotBlank(w, w.trader.number.value);
    }
  }

  lemma GuardHoldsOn(w: World, e: Event)
    requires Safe(w) && GuardHolds(w) && Enabled(w, e)
    ensures GuardHolds(Next(w, e))
  {
    hide Safe, Sensible, AfterSupervise, OpenQuantity, ExitOrders, Unresolved;
    var v := Next(w, e);
    if v.trader.Cleared? && v.trader.ticket.side == Buy {
      forall c | c in v.ledger.orders && c != v.trader.ticket.client && v.ledger.orders[c].side == Buy
        ensures Unsent(v.ledger.orders[c].status) || v.ledger.orders[c].status.Terminal()
      {
        if e.Supervise? {
          SameLoop(w, e.snapshot);
          PassLeavesUnplaced(w, e.snapshot, c);
        } else if e.Guard? {
          assert !SeenByGuard(w.ledger.orders[c]);
        }
      }
    }
  }

  lemma SameLoop(w: World, s: Snapshot)
    requires Safe(w) && Sensible(w, s)
    ensures var v := AfterSupervise(w, s);
            v == w.(ledger := v.ledger, pending := v.pending, cancelRequested := false, review := v.review, blockEntries := v.blockEntries)
    ensures AfterSupervise(w, s).ledger.orders.Keys == w.ledger.orders.Keys
  {
    hide PassReady, AfterSupervise, ExitOrders, AllLevel, OpenQuantity, BrokerBook, ExitsBounded, TraderOk, CallLog, Sensible;
    PassKeeps(w, s, Reached(w));
  }

  lemma NoneStrandedOn(w: World, e: Event)
    requires Safe(w) && NoneStranded(w) && Enabled(w, e) && !LosesEntry(w, e)
    ensures NoneStranded(Next(w, e))
  {
    hide PassReady, Sensible, AfterSupervise, OpenQuantity, ExitOrders, Unresolved, BrokerBook, ExitsBounded;
    var v := Next(w, e);
    forall c | Stranded(v, c)
      ensures v.trader.Answered? && v.trader.ticket.client == c
    {
      if e.Supervise? {
        SameLoop(w, e.snapshot);
        PassLeavesUnplaced(w, e.snapshot, c);
        assert Stranded(w, c);
      } else if c in w.calls {
        PlainStep(w, e, c);
        assert Stranded(w, c);
        if e.Finish? {
          FinishWrites(w, e.at);
        }
      }
    }
  }

  lemma OneLiveBuyOn(w: World, e: Event)
    requires Safe(w) && GuardHolds(w) && NoneStranded(w) && OneLiveBuy(w) && Enabled(w, e)
    ensures OneLiveBuy(Next(w, e))
  {
    hide Safe, Sensible, AfterSupervise, OpenQuantity, ExitOrders, Unresolved, GuardHolds;
    var v := Next(w, e);
    if e.CallBroker? && w.trader.ticket.side == Buy {
      assert !exists c :: Stranded(w, c);
      SecondBuyIffStranded(w, e.number, e.accepted, e.replied);
    } else {
      forall c | c in v.calls && c in v.ledger.orders && LiveBuy(v.ledger.orders[c])
        ensures c in w.calls && c in w.ledger.orders && LiveBuy(w.ledger.orders[c])
      {
        if e.Supervise? {
          SameLoop(w, e.snapshot);
          PassLeavesUnplaced(w, e.snapshot, c);
        } else {
          SafeLoop(w);
          CalledBefore(w, e, c);
          PlainStep(w, e, c);
        }
      }
    }
  }

  /** A live BUY among the calls was called before, or is being called now. */
  lemma CalledBefore(w: World, e: Event, c: string)
    requires TraderOk(w) && CallLog(w) && Enabled(w, e) && !e.Supervise? && c in Next(w, e).calls && c in Next(w, e).ledger.orders
    requires LiveBuy(Next(w, e).ledger.orders[c]) && !(e.CallBroker? && w.trader.ticket.side == Buy)
    ensures c in w.calls && c in w.ledger.orders
  {
    hide Next, Enabled;
    if e.CallBroker? {
      CallStep(w, e.number, e.accepted, e.replied);
      assert w.ledger.orders[w.trader.ticket.client].side == w.trader.ticket.side;
    } else {
      CallsStand(w, e);
    }
  }

  lemma CallsStand(w: World, e: Event)
    requires Enabled(w, e) && !e.CallBroker? && !e.Supervise?
    ensures Next(w, e).calls == w.calls
  {
    hide Sensible, AfterSupervise, OpenQuantity, ExitOrders, Unresolved, GuardPasses;
  }

  lemma SafeLoop(w: World)
    requires Safe(w)
    ensures TraderOk(w) && CallLog(w)
  {
  }

  lemma {:induction false} EntriesHold(ws: seq<World>, es: seq<Event>, i: nat)
    requires Run(ws, es) && i < |ws|
    ensures Safe(ws[i]) && GuardHolds(ws[i])
    ensures (forall k :: 0 <= k < i ==> !LosesEntry(ws[k], es[k])) ==> NoneStranded(ws[i]) && OneLiveBuy(ws[i])
  {
    hide Safe, Next, Enabled, GuardHolds, NoneStranded, OneLiveBuy;
    EveryRunSafe(ws, es, i);
    if i == 0 {
      AtTheStart(ws[0]);
    } else {
      EntriesHold(ws, es, i - 1);
      var w, e := ws[i - 1], es[i - 1];
      assert Enabled(w, e) && ws[i - 1 + 1] == Next(w, e);
      GuardHoldsOn(w, e);
      if forall k :: 0 <= k < i ==> !LosesEntry(ws[k], es[k]) {
        NoneStrandedOn(w, e);
        OneLiveBuyOn(w, e);
      }
    }
  }

  lemma AtTheStart(w: World)
    requires w == Initial(w.ledger.decisions, w.maxRequotes)
    ensures GuardHolds(w) && NoneStranded(w) && OneLiveBuy(w)
  {
  }

  /** In every state of every run that has so far not died between the broker's
      answer to a BUY and the row that records it, at most one BUY the broker was
      called with is live. */
  lemma AtMostOneLiveBuy(ws: seq<World>, es: seq<Event>, i: nat)
    requires Run(ws, es) && i < |ws|
    requires forall k :: 0 <= k < i ==> !LosesEntry(ws[k], es[k])
    ensures forall c, d :: (c in ws[i].calls && d in ws[i].calls && c in ws[i].ledger.orders && d in ws[i].ledger.orders
                            && LiveBuy(ws[i].ledger.orders[c]) && LiveBuy(ws[i].ledger.orders[d])) ==> c == d
  {
    hide Safe, Next, Enabled, GuardHolds, NoneStranded;
    EntriesHold(ws, es, i);
  }

  // ------------------------------------------------------------- after a pass

  /** A row left SUBMITTING that nobody is working on, with both flags up. */
  ghost predicate Blocked(w: World, c: string) {
    && c in w.ledger.orders && w.ledger.orders[c].status == Submitting && w.ledger.orders[c].brokerId == None
    && !Holds(w.trader, c) && w.review && w.blockEntries
  }

  /** A pass that finds a SUBMITTING row raises both flags. */
  lemma PassBlocks(w: World, s: Snapshot, c: string)
    requires Safe(w) && Sensible(w, s) && c in w.ledger.orders && w.ledger.orders[c].status == Submitting
    ensures AfterSupervise(w, s).review && AfterSupervise(w, s).blockEntries
  {
    hide Mirrors, SalesTakenIn, OneLiveSale, CoveredSales, AllLevel, CancelBuyRows, ManageRows, ReconcileRows, Unapplied, BrokerBook, ExitsBounded, TraderOk, CallLog;
    UnsentIsUnplaced(w, w.ledger, c);
    SelectedExist(w.ledger, s.rows);
    RowsTruth(Progress(w.ledger, NOTHING_YET, None), w.broker, Reached(w), s.rows, s.records, s.market.now);
    assert Selected(w.ledger, c);
    var q := AfterReconcile(w, s);
    assert Dealt(w.ledger.orders[c], q.ledger, c, s.records, s.market.now, Clean(q.tally.reasons));
    assert q.tally.reasons != [];
    PassKeeps(w, s, Reached(w));
  }

  lemma BlockedOn(w: World, e: Event, c: string)
    requires Safe(w) && Blocked(w, c) && Enabled(w, e)
    ensures Blocked(Next(w, e), c)
    ensures e.Guard? ==> w.trader.Marked?
    ensures e.Guard? && w.trader.ticket.side == Buy ==> Next(w, e).trader.Refused?
  {
    hide Safe, Next, Enabled;
    if e.Supervise? {
      SuperviseStep(w, e);
      SameLoop(w, e.snapshot);
      PassLeavesUnplaced(w, e.snapshot, c);
      PassBlocks(w, e.snapshot, c);
    } else {
      SafeLoop(w);
      PlainStep(w, e, c);
      FlagsStand(w, e);
      NobodyTakes(w, e, c);
    }
  }

  lemma SuperviseStep(w: World, e: Event)
    requires Enabled(w, e) && e.Supervise?
    ensures Sensible(w, e.snapshot) && Next(w, e) == AfterSupervise(w, e.snapshot)
  {
    hide Sensible, AfterSupervise;
  }

  lemma FlagsStand(w: World, e: Event)
    requires Enabled(w, e) && !e.Supervise?
    ensures w.review ==> Next(w, e).review
    ensures w.blockEntries ==> Next(w, e).blockEntries
    ensures e.Guard? ==> w.trader.Marked?
    ensures e.Guard? && w.trader.ticket.side == Buy && w.review ==> Next(w, e).trader.Refused?
  {
    hide Sensible, AfterSupervise, OpenQuantity, ExitOrders, Unresolved, SeenByGuard;
  }

  /** No step takes up an order that is there and that nobody is placing. */
  lemma NobodyTakes(w: World, e: Event, c: string)
    requires Enabled(w, e) && !e.Supervise? && c in w.ledger.orders && !Holds(w.trader, c)
    ensures !Holds(Next(w, e).trader, c)
  {
    hide Next, Enabled;
    if e.ClaimIt? {
      ClaimTakesNew(w, e);
    } else {
      TicketStays(w, e);
    }
  }

  lemma ClaimTakesNew(w: World, e: Event)
    requires Enabled(w, e) && e.ClaimIt?
    ensures var t := Next(w, e).trader; t.Idle? || (t.Claimed? && t.ticket.client !in w.ledger.orders)
  {
    hide Sensible, AfterSupervise, OpenQuantity, ExitOrders, Unresolved, GuardPasses;
  }

  /** A ticket passes from step to step, or is let go. */
  ghost predicate TicketKept(t: Trader, u: Trader) {
    u.Idle? || u.SawPosition? || u.Vetted? || u == t
    || ((t.Claimed? || t.Marked? || t.Cleared?) && (u.Marked? || u.Refused? || u.Cleared? || u.Answered?) && u.ticket == t.ticket)
  }

  lemma TicketMoves(w: World, e: Event)
    requires Enabled(w, e) && !e.Supervise? && !e.ClaimIt?
    ensures TicketKept(w.trader, Next(w, e).trader)
  {
    hide Sensible, AfterSupervise, OpenQuantity, ExitOrders, Unresolved, GuardPasses, MarkSubmitting, RecordSubmission, MarkUnknown, FirstOpen;
    match e
    case ReadPosition(_) =>
    case VetExit(_, _) =>
    case VetEntry(_) =>
    case MarkIt(_) =>
    case Guard(_) =>
    case CallBroker(_, _, _) =>
    case Finish(_) =>
    case _ =>
  }

  lemma TicketStays(w: World, e: Event)
    requires Enabled(w, e) && !e.Supervise? && !e.ClaimIt?
    ensures var t := Next(w, e).trader;
            (t.Claimed? || t.Marked? || t.Refused? || t.Cleared? || t.Answered?) ==> Holds(w.trader, t.ticket.client)
  {
    hide Next, Enabled;
    TicketMoves(w, e);
  }

  /** Once a pass has seen a stranded order, no BUY passes the guard again. */
  lemma {:induction false} StrandedOrderBlocksEntries(ws: seq<World>, es: seq<Event>, i: nat, j: nat, c: string)
    requires Run(ws, es) && i < j < |ws| && es[i].Supervise?
    requires c in ws[i].ledger.orders && ws[i].ledger.orders[c].status == Submitting && !Holds(ws[i].trader, c)
    ensures Blocked(ws[j], c)
    ensures j < |es| && es[j].Guard? && ws[j].trader.Marked? && ws[j].trader.ticket.side == Buy ==> ws[j + 1].trader.Refused?
    decreases j
  {
    hide Safe, Next, Enabled, Blocked;
    EveryRunSafe(ws, es, j - 1);
    assert Enabled(ws[j - 1], es[j - 1]) && ws[j - 1 + 1] == Next(ws[j - 1], es[j - 1]);
    if i == j - 1 {
      PassBlocksRow(ws[i], es[i].snapshot, c);
    } else {
      StrandedOrderBlocksEntries(ws, es, i, j - 1, c);
      BlockedOn(ws[j - 1], es[j - 1], c);
    }
    if j < |es| && es[j].Guard? {
      EveryRunSafe(ws, es, j);
      assert Enabled(ws[j], es[j]) && ws[j + 1] == Next(ws[j], es[j]);
      BlockedOn(ws[j], es[j], c);
    }
  }

  lemma PassBlocksRow(w: World, s: Snapshot, c: string)
    requires Safe(w) && Enabled(w, Supervise(s)) && c in w.ledger.orders && w.ledger.orders[c].status == Submitting
    requires !Holds(w.trader, c)
    ensures Blocked(Next(w, Supervise(s)), c)
  {
    hide Mirrors, SalesTakenIn, OneLiveSale, CoveredSales, Sensible, AfterSupervise, OpenQuantity, ExitOrders, Unresolved, BrokerBook, ExitsBounded, CallLog, TraderOk;
    SameLoop(w, s);
    PassLeavesUnplaced(w, s, c);
    UnsentIsUnplaced(w, w.ledger, c);
    PassBlocks(w, s, c);
  }

  // ------------------------------------------------------------- the gap itself

  ghost predicate Steps(ws: seq<World>, es: seq<Event>) {
    |ws| == |es| + 1 && forall i :: 0 <= i < |es| ==> Enabled(ws[i], es[i]) && ws[i + 1] == Next(ws[i], es[i])
  }

  /** A world in which an entry is let through. */
  ghost predicate Inviting(w: World, t: Ticket, number: string) {
    && w.trader.Idle? && !w.review && !w.blockEntries && t.side == Buy && !Blank(t.client) && !Blank(t.signal) && StockCode(t.symbol)
    && t.client !in w.ledger.orders && number !in w.broker && !Blank(number)
    && forall c :: c in w.ledger.orders ==> w.ledger.orders[c].status == Submitting
  }

  ghost function TicketRow(t: Ticket, status: Status): Order {
    Order(Some(t.signal), t.symbol, t.side, t.quantity, t.price, status, None, 0, None, 0, 0, None, None, None)
  }

  lemma EntryClaimed(w: World, t: Ticket, number: string)
    requires Inviting(w, t, number)
    ensures Enabled(w, VetEntry(t)) && Enabled(Next(w, VetEntry(t)), ClaimIt(0))
    ensures Next(Next(w, VetEntry(t)), ClaimIt(0)) == w.(ledger := PutOrder(w.ledger, t.client, TicketRow(t, Intent)), trader := Claimed(t))
  {
    hide OpenQuantity, ExitOrders, Unresolved, Sensible, AfterSupervise;
  }

  lemma EntryMarked(w: World, t: Ticket)
    requires w.trader == Claimed(t) && !Blank(t.client) && t.client in w.ledger.orders && w.ledger.orders[t.client] == TicketRow(t, Intent)
    ensures Enabled(w, MarkIt(0))
    ensures Next(w, MarkIt(0)) == w.(ledger := PutOrder(w.ledger, t.client, TicketRow(t, Submitting)), trader := Marked(t))
  {
    hide OpenQuantity, ExitOrders, Unresolved, Sensible, AfterSupervise;
  }

  lemma EntryCleared(w: World, t: Ticket)
    requires w.trader == Marked(t) && t.side == Buy && !w.review && !w.blockEntries
    requires forall c :: c in w.ledger.orders ==> w.ledger.orders[c].status == Submitting
    ensures Enabled(w, Guard(true)) && Next(w, Guard(true)) == w.(trader := Cleared(t))
  {
    hide OpenQuantity, ExitOrders, Unresolved, Sensible, AfterSupervise;
    assert forall c :: c in w.ledger.orders ==> !SeenByGuard(w.ledger.orders[c]);
  }

  lemma EntryCalled(w: World, t: Ticket, number: string)
    requires w.trader == Cleared(t) && number !in w.broker && !Blank(number)
    ensures Enabled(w, CallBroker(number, true, true)) && Enabled(Next(w, CallBroker(number, true, true)), Crash)
    ensures Next(Next(w, CallBroker(number, true, true)), Crash)
            == w.(trader := Idle, calls := w.calls + [t.client],
                  broker := w.broker[number := BrokerOrder(t.client, t.symbol, t.side, t.quantity, 0, 0.0, None)])
  {
    hide OpenQuantity, ExitOrders, Unresolved, Sensible, AfterSupervise;
  }

  /** An entry that reaches the broker, whose answer the service dies on. */
  lemma EntryLost(w: World, t: Ticket, number: string) returns (ws: seq<World>, es: seq<Event>)
    requires Inviting(w, t, number)
    ensures Steps(ws, es) && |es| == 6 && ws[0] == w && forall k :: 0 <= k < 5 ==> !es[k].Crash?
    ensures var v := ws[6];
            && v.trader == Idle && v.calls == w.calls + [t.client] && v.review == w.review && v.blockEntries == w.blockEntries
            && v.broker.Keys == w.broker.Keys + {number}
            && v.ledger == PutOrder(w.ledger, t.client, TicketRow(t, Submitting))
  {
    hide Next, Enabled;
    es := [VetEntry(t), ClaimIt(0), MarkIt(0), Guard(true), CallBroker(number, true, true), Crash];
    EntryClaimed(w, t, number);
    var w1 := Next(w, es[0]);
    var w2 := Next(w1, es[1]);
    EntryMarked(w2, t);
    var w3 := Next(w2, es[2]);
    assert w3.ledger.orders == w.ledger.orders[t.client := TicketRow(t, Submitting)];
    EntryCleared(w3, t);
    var w4 := Next(w3, es[3]);
    EntryCalled(w4, t, number);
    var w5 := Next(w4, es[4]);
    ws := [w, w1, w2, w3, w4, w5, Next(w5, es[5])];
  }

  lemma StepsJoin(ws: seq<World>, es: seq<Event>, vs: seq<World>, fs: seq<Event>)
    requires Steps(ws, es) && Steps(vs, fs) && vs[0] == ws[|es|]
    ensures Steps(ws + vs[1..], es + fs)
  {
    hide Next, Enabled;
    var all, events := ws + vs[1..], es + fs;
    forall i | 0 <= i < |events|
      ensures Enabled(all[i], events[i]) && all[i + 1] == Next(all[i], events[i])
    {
      if i < |es| {
        assert Enabled(ws[i], es[i]) && ws[i + 1] == Next(ws[i], es[i]);
      } else {
        var k := i - |es|;
        assert Enabled(vs[k], fs[k]) && vs[k + 1] == Next(vs[k], fs[k]);
        assert all[i] == vs[k] && all[i + 1] == vs[k + 1];
      }
    }
  }

  /** Two entries with the service dying on the first one's answer, and no pass
      between them: the broker holds two live BUYs. */
  lemma CrashAllowsSecondBuy() returns (ws: seq<World>, es: seq<Event>)
    ensures Run(ws, es) && TwoLiveBuys(ws[|es|])
  {
    hide Next, Enabled, Run, OneLiveBuy;
    var a, b := Ticket("a", "s", "005930", Buy, 1, 1.0), Ticket("b", "s", "005930", Buy, 1, 1.0);
    assert "a"[0] == 'a' && "b"[0] == 'b' && "s"[0] == 's' && "1"[0] == '1' && "2"[0] == '2';
    var start := Initial(map[], 0);
    var ws1, es1 := EntryLost(start, a, "1");
    var ws2, es2 := EntryLost(ws1[6], b, "2");
    StepsJoin(ws1, es1, ws2, es2);
    ws, es := ws1 + ws2[1..], es1 + es2;
    StepsAreRun(ws, es);
    var v := ws2[6];
    assert ws[12] == v && v.calls == ["a"] + ["b"];
    BothLive(v, a, b);
  }

  lemma StepsAreRun(ws: seq<World>, es: seq<Event>)
    requires Steps(ws, es) && ws[0] == Initial(ws[0].ledger.decisions, ws[0].maxRequotes)
    ensures Run(ws, es)
  {
    hide Next, Enabled;
  }

  ghost predicate TwoLiveBuys(w: World) {
    w.calls == ["a", "b"] && w.broker.Keys == {"1", "2"} && !OneLiveBuy(w)
  }

  lemma BothLive(w: World, a: Ticket, b: Ticket)
    requires a.client == "a" && b.client == "b" && a.side == b.side == Buy
    requires w.calls == ["a", "b"] && w.broker.Keys == {"1", "2"}
    requires w.ledger.orders == map["a" := TicketRow(a, Submitting)]["b" := TicketRow(b, Submitting)]
    ensures TwoLiveBuys(w)
  {
    assert "a" in w.calls && "b" in w.calls;
    assert LiveBuy(w.ledger.orders["a"]) && LiveBuy(w.ledger.orders["b"]);
  }
}
