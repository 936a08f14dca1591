/** Whether a cancel request is sent again: the pass that sends it, the next
    reconcile, and the next stale-order pass, for all orders, records and policies. */
module AskedAgain {
  import opened Wrappers
  import opened Text
  import opened LedgerTables
  import opened BrokerRecords
  import opened Reconciliation
  import opened OrderManagement
  import opened TruthfulBroker
  import opened ReconcileTruth
  import opened PassTruth
  import opened ReconcileTheorems
  import opened ManageTruth
  import opened ServiceRun
  import opened ServiceSafety
  import opened CancelOnce

  // ------------------------------------------------------ the pass that asks

  /** A row leaves every other order's marker alone, and keeps its broker number. */
  lemma RowMarks(d: Desk, c: string, records: seq<Record>, acknowledged: set<string>, m: Market, policy: Policy)
    requires c in d.ledger.orders
    ensures var e := ManageRow(d, c, d.ledger.orders[c], records, acknowledged, m, policy);
            && (forall b :: b != c ==> (b in e.pending <==> b in d.pending))
            && c in e.ledger.orders && e.ledger.orders[c].brokerId == d.ledger.orders[c].brokerId
  {
    hide FindRecord, Blank, Stale, SameOrder;
  }

  /** What a request leaves of its order: a marker exactly when the broker
      acknowledged it, and otherwise UNKNOWN without one. */
  ghost predicate Left(d: Desk, e: Desk, c: string, acknowledged: set<string>) {
    && c in d.ledger.orders && c in e.ledger.orders && c !in d.pending
    && d.ledger.orders[c].brokerId.Some? && e.ledger.orders[c].brokerId == d.ledger.orders[c].brokerId
    && (c in e.pending <==> d.ledger.orders[c].brokerId.value in acknowledged)
    && (c !in e.pending ==> e.ledger.orders[c].status == Unknown)
  }

  lemma {:induction false} RequestLeaves(d: Desk, rows: seq<string>, records: seq<Record>, acknowledged: set<string>,
                                         m: Market, policy: Policy, c: string)
    requires NoRepeats(rows) && (forall b :: b in rows ==> b in d.ledger.orders) && d.sent == [] && !Blank(c)
    requires c in ManageRows(d, d.ledger.orders, rows, records, acknowledged, m, policy).sent
    ensures Left(d, ManageRows(d, d.ledger.orders, rows, records, acknowledged, m, policy), c, acknowledged)
  {
    hide ManageRow, Blank;
    if rows != [] {
      var front, b := rows[..|rows| - 1], rows[|rows| - 1];
      assert rows == front + [b];
      assert b in rows && b !in front && forall x :: x in front ==> x in rows;
      ManageAsks(d, front, records, acknowledged, m, policy);
      MarkersOfRows(d, front, records, acknowledged, m, policy);
      var e := ManageRows(d, d.ledger.orders, front, records, acknowledged, m, policy);
      if e.error.None? {
        ManageRowAsks(e, b, d.ledger.orders[b], records, acknowledged, m, policy);
        RowMarks(e, b, records, acknowledged, m, policy);
        if b == c {
          assert c !in e.sent;
          MarkedIffAcknowledged(e, c, records, acknowledged, m, policy);
        } else {
          assert c in e.sent;
          RequestLeaves(d, front, records, acknowledged, m, policy, c);
        }
      } else {
        RequestLeaves(d, front, records, acknowledged, m, policy, c);
      }
    }
  }

  lemma {:induction false} MarkersOfRows(d: Desk, rows: seq<string>, records: seq<Record>, acknowledged: set<string>,
                                         m: Market, policy: Policy)
    requires NoRepeats(rows) && forall b :: b in rows ==> b in d.ledger.orders
    ensures forall b :: b !in rows ==>
              (b in ManageRows(d, d.ledger.orders, rows, records, acknowledged, m, policy).pending <==> b in d.pending)
  {
    hide ManageRow;
    if rows != [] {
      var front, c := rows[..|rows| - 1], rows[|rows| - 1];
      assert rows == front + [c];
      assert c in rows && c !in front && forall x :: x in front ==> x in rows;
      MarkersOfRows(d, front, records, acknowledged, m, policy);
      ManageAsks(d, front, records, acknowledged, m, policy);
      var e := ManageRows(d, d.ledger.orders, front, records, acknowledged, m, policy);
      if e.error.None? {
        RowMarks(e, c, records, acknowledged, m, policy);
      }
    }
  }

  // ------------------------------------------------------- the pass after it

  /** What makes a stale-order pass ask for an order. */
  ghost predicate Due(d: Desk, c: string, records: seq<Record>, m: Market, policy: Policy) {
    && c in d.ledger.orders && c !in d.pending
    && var o := d.ledger.orders[c];
    && (o.status == Acknowledged || o.status == PartiallyFilled) && Stale(o, m, policy) && ShownOpen(o, records)
  }

  /** The snapshot shows the order open, with what a cancel request needs. */
  ghost predicate ShownOpen(o: Order, records: seq<Record>) {
    var rec := RecordOf(o, records);
    && rec.Some? && (rec.value.status == Unfilled || rec.value.status == PartlyFilled)
    && rec.value.number != "" && rec.value.branch.Some? && rec.value.branch.value != "" && rec.value.remaining > 0
  }

  lemma RowAsksIffDue(d: Desk, broker: map<string, BrokerOrder>, c: string, records: seq<Record>, acknowledged: set<string>,
                      m: Market, policy: Policy)
    requires Mirrors(d.ledger, broker) && Truthful(records, broker) && AllLevel(d.ledger, records)
    requires c in d.ledger.orders && !d.ledger.orders[c].status.Terminal()
    ensures var e := ManageRow(d, c, d.ledger.orders[c], records, acknowledged, m, policy);
            e.sent == if Due(d, c, records, m, policy) then d.sent + [c] else d.sent
  {
    hide Mirrors, FindRecord, Stale, CopyStatus, SetAside;
    var local := d.ledger.orders[c];
    var rec := RecordOf(local, records);
    SetAsideTouches(d, c, m.now);
    if rec.Some? {
      assert Ready(d.ledger, broker, c, rec.value);
      ReadyFacts(d.ledger, broker, c, rec.value);
      CopyTruth(d.ledger, broker, c, CancelPending, rec.value, m.now);
      CopyTouches(d.ledger, c, CancelPending, rec.value, m.now);
      var asked := d.(ledger := CopyStatus(d.ledger, c, CancelPending, rec.value, m.now).value.0, sent := d.sent + [c]);
      SetAsideTouches(asked, c, m.now);
    }
  }

  /** Over a true snapshot the pass asks for exactly the orders that are due. */
  lemma {:induction false} PassAsksIffDue(d: Desk, broker: map<string, BrokerOrder>, reached: set<string>, rows: seq<string>,
                                          records: seq<Record>, acknowledged: set<string>, m: Market, policy: Policy, c: string)
    requires d.error.None? && d.sent == [] && PassReady(d.ledger, broker, reached) && Truthful(records, broker) && AllLevel(d.ledger, records)
    requires NoRepeats(rows) && forall b :: b in rows ==> b in d.ledger.orders && !d.ledger.orders[b].status.Terminal()
    ensures c in ManageRows(d, d.ledger.orders, rows, records, acknowledged, m, policy).sent
            <==> c in rows && Due(d, c, records, m, policy)
  {
    hide ManageRow, Due, Mirrors, SalesTakenIn, OneLiveSale, CoveredSales, AllLevel;
    if rows != [] {
      var front, b := rows[..|rows| - 1], rows[|rows| - 1];
      assert rows == front + [b];
      assert b in rows && b !in front && forall x :: x in front ==> x in rows;
      PassAsksIffDue(d, broker, reached, front, records, acknowledged, m, policy, c);
      ManageRowsTruth(d, broker, reached, front, records, acknowledged, m, policy);
      MarkersOfRows(d, front, records, acknowledged, m, policy);
      var e := ManageRows(d, d.ledger.orders, front, records, acknowledged, m, policy);
      assert e.ledger.orders[b] == d.ledger.orders[b];
      RowAsksIffDue(e, broker, b, records, acknowledged, m, policy);
      DueStays(d, e, b, records, m, policy);
    }
  }

  lemma DueStays(d: Desk, e: Desk, c: string, records: seq<Record>, m: Market, policy: Policy)
    requires c in d.ledger.orders && c in e.ledger.orders && e.ledger.orders[c] == d.ledger.orders[c]
    requires c in e.pending <==> c in d.pending
    ensures Due(e, c, records, m, policy) <==> Due(d, c, records, m, policy)
  {
  }

  // --------------------------------------------------- the operator's cancel-all

  lemma CancelBuyRowAsksIff(d: Desk, broker: map<string, BrokerOrder>, c: string, records: seq<Record>, acknowledged: set<string>, now: int)
    requires Mirrors(d.ledger, broker) && Truthful(records, broker) && AllLevel(d.ledger, records)
    requires c in d.ledger.orders && !d.ledger.orders[c].status.Terminal() && d.ledger.orders[c].side == Buy
    ensures var e := CancelBuyRow(d, c, d.ledger.orders[c], records, acknowledged, now);
            e.sent == if ShownOpen(d.ledger.orders[c], records) then d.sent + [c] else d.sent
  {
    hide Mirrors, FindRecord, CopyStatus, SetAside;
    var rec := RecordOf(d.ledger.orders[c], records);
    SetAsideTouches(d, c, now);
    if rec.Some? {
      assert Ready(d.ledger, broker, c, rec.value);
      ReadyFacts(d.ledger, broker, c, rec.value);
      CopyTruth(d.ledger, broker, c, CancelPending, rec.value, now);
      CopyTouches(d.ledger, c, CancelPending, rec.value, now);
      var asked := d.(ledger := CopyStatus(d.ledger, c, CancelPending, rec.value, now).value.0, sent := d.sent + [c]);
      SetAsideTouches(asked, c, now);
    }
  }

  /** Over a true snapshot the operator's cancel-all asks for exactly the working
      BUYs that are shown open and cancellable. */
  lemma {:induction false} CancelAllAsksIff(d: Desk, broker: map<string, BrokerOrder>, reached: set<string>, rows: seq<string>,
                                            records: seq<Record>, acknowledged: set<string>, now: int, c: string)
    requires d.error.None? && d.sent == [] && PassReady(d.ledger, broker, reached) && Truthful(records, broker) && AllLevel(d.ledger, records)
    requires NoRepeats(rows)
    requires forall b :: b in rows ==>
               b in d.ledger.orders && d.ledger.orders[b].side == Buy
               && (d.ledger.orders[b].status == Acknowledged || d.ledger.orders[b].status == PartiallyFilled)
    ensures c in CancelBuyRows(d, d.ledger.orders, rows, records, acknowledged, now).sent
            <==> c in rows && ShownOpen(d.ledger.orders[c], records)
  {
    hide CancelBuyRow, ShownOpen, Mirrors, SalesTakenIn, OneLiveSale, CoveredSales, AllLevel;
    if rows != [] {
      var front, b := rows[..|rows| - 1], rows[|rows| - 1];
      assert rows == front + [b];
      assert b in rows && b !in front && forall x :: x in front ==> x in rows;
      CancelAllAsksIff(d, broker, reached, front, records, acknowledged, now, c);
      HaveNumbers(d.ledger, broker, rows);
      CancelBuyRowsTruth(d, broker, reached, front, records, acknowledged, now);
      var e := CancelBuyRows(d, d.ledger.orders, front, records, acknowledged, now);
      assert e.ledger.orders[b] == d.ledger.orders[b];
      CancelBuyRowAsksIff(e, broker, b, records, acknowledged, now);
    }
  }

  lemma HaveNumbers(l: Ledger, broker: map<string, BrokerOrder>, rows: seq<string>)
    requires Mirrors(l, broker)
    requires forall b :: b in rows ==> b in l.orders && (l.orders[b].status == Acknowledged || l.orders[b].status == PartiallyFilled)
    ensures forall b :: b in rows ==> l.orders[b].brokerId.Some? && !l.orders[b].status.Terminal()
  {
    forall b | b in rows
      ensures l.orders[b].brokerId.Some?
    {
      PlacedIn(l, broker, b);
    }
  }

  /** In the service: an operator's request reaches exactly the BUYs that are working
      after the reconcile part and shown open and cancellable. */
  lemma OperatorCancelReaches(w: World, s: Snapshot, c: string)
    requires Safe(w) && Sensible(w, s) && w.cancelRequested
    ensures var l := AfterReconcile(w, s).ledger;
            c in AfterCancels(w, s, l).sent <==>
              && c in l.orders && l.orders[c].side == Buy
              && (l.orders[c].status == Acknowledged || l.orders[c].status == PartiallyFilled) && ShownOpen(l.orders[c], s.records)
  {
    hide Mirrors, SalesTakenIn, OneLiveSale, CoveredSales, AllLevel, CancelBuyRows, ReconcileRows, BrokerBook, CallLog, TraderOk, ExitsBounded,
         Truthful, RowsOf, ShownOpen, AfterManage;
    var l := AfterReconcile(w, s).ledger;
    PassRefinesBroker(w.ledger, w.broker, Reached(w), s.rows, s.records, s.market.now);
    LevelAll(l, s.records);
    CancelAllAsksIff(Desk(l, w.pending, [], 0, 0, 0, None), w.broker, Reached(w), s.buys, s.records, s.acknowledged, s.market.now, c);
  }

  /** Without one, the stale-order part reaches exactly the orders that are due. */
  lemma StalePassReaches(w: World, s: Snapshot, c: string)
    requires Safe(w) && Sensible(w, s) && !w.cancelRequested
    ensures var l := AfterReconcile(w, s).ledger;
            var d := AfterCancels(w, s, l);
            c in AfterManage(s, d).sent <==> Due(d, c, s.records, s.market, s.policy)
  {
    hide Mirrors, SalesTakenIn, OneLiveSale, CoveredSales, AllLevel, ManageRows, ReconcileRows, BrokerBook, CallLog, TraderOk, ExitsBounded,
         Truthful, RowsOf, ShownOpen, Stale;
    var l := AfterReconcile(w, s).ledger;
    PassRefinesBroker(w.ledger, w.broker, Reached(w), s.rows, s.records, s.market.now);
    LevelAll(l, s.records);
    var d := AfterCancels(w, s, l);
    PassAsksIffDue(d.(waiting := 0), w.broker, Reached(w), s.open, s.records, s.acknowledged, s.market, s.policy, c);
  }

  // ------------------------------------------------------------- the theorem

  /** A true reconcile between the passes makes an UNKNOWN order that the snapshot
      shows open a working one again. */
  lemma UnknownWorksAgain(l: Ledger, broker: map<string, BrokerOrder>, reached: set<string>, rows: seq<string>,
                          records: seq<Record>, now: int, c: string)
    requires PassReady(l, broker, reached) && RowsOf(l, rows) && Truthful(records, broker)
    requires c in l.orders && l.orders[c].status == Unknown && l.orders[c].brokerId.Some?
    ensures var m := Pass(l, rows, records, now).ledger;
            && c in m.orders && RecordOf(m.orders[c], records) == RecordOf(l.orders[c], records)
            && (ShownOpen(l.orders[c], records) ==> m.orders[c].status == Acknowledged || m.orders[c].status == PartiallyFilled)
  {
    hide Mirrors, SalesTakenIn, OneLiveSale, CoveredSales, Unapplied;
    RowsTruth(Progress(l, NOTHING_YET, None), broker, reached, rows, records, now);
    assert Selected(l, c);
    var q := Pass(l, rows, records, now);
    assert Dealt(l.orders[c], q.ledger, c, records, now, Clean(q.tally.reasons));
  }

  /** A cancel request is sent, and then come a reconcile and a stale-order pass
      over one true snapshot: the order is asked for again if and only if the
      broker did not acknowledge the request and the snapshot shows the order
      open and cancellable and it is still stale. If the broker did, no
      stale-order pass ever asks for it again. */
  lemma AskedAgainIff(ds: seq<Desk>, ks: seq<Work>, c: string, broker: map<string, BrokerOrder>, reached: set<string>)
    requires History(ds, ks) && |ks| >= 3 && ks[0].ManageWork? && ks[1].ReconcileWork? && ks[2].ManageWork?
    requires c in ds[1].sent && !Blank(c)
    requires PassReady(ds[1].ledger, broker, reached) && Truthful(ks[1].records, broker) && ks[2].records == ks[1].records
    requires RowsOf(ds[1].ledger, ks[1].rows) && ListOf(ks[2].rows, OpenIds(ds[2].ledger))
    ensures c in ds[0].ledger.orders && ds[0].ledger.orders[c].brokerId.Some? && c in ds[2].ledger.orders
    ensures c in ds[3].sent <==>
              && ds[0].ledger.orders[c].brokerId.value !in ks[0].acknowledged
              && ShownOpen(ds[0].ledger.orders[c], ks[1].records)
              && Stale(ds[2].ledger.orders[c], ks[2].market, ks[2].policy)
    ensures ds[0].ledger.orders[c].brokerId.value in ks[0].acknowledged ==>
              forall j :: 1 <= j < |ks| && ks[j].ManageWork? ==> c !in ds[j + 1].sent
  {
    hide Mirrors, SalesTakenIn, OneLiveSale, CoveredSales, AllLevel, Stale, ManageRows, ReconcileRows, RowsOf, NoRepeats, Blank, Parsed;
    assert forall i :: 0 <= i < 3 ==> Listed(ds[i].ledger, ks[i]) && ds[i + 1] == Worked(ds[i], ks[i]);
    var k0, k2 := ks[0], ks[2];
    RequestLeaves(Desk(ds[0].ledger, ds[0].pending, [], 0, 0, 0, None), k0.rows, k0.records, k0.acknowledged, k0.market, k0.policy, c);
    assert Left(ds[0], ds[1], c, k0.acknowledged);
    PassRefinesBroker(ds[1].ledger, broker, reached, ks[1].rows, ks[1].records, ks[1].now);
    LevelAll(ds[2].ledger, ks[2].records);
    var d := Desk(ds[2].ledger, ds[2].pending, [], 0, 0, 0, None);
    PassAsksIffDue(d, broker, reached, k2.rows, k2.records, k2.acknowledged, k2.market, k2.policy, c);
    if c in ds[1].pending {
      forall j | 1 <= j < |ks| && ks[j].ManageWork?
        ensures c !in ds[j + 1].sent
      {
        AcknowledgedCancelIsLast(ds, ks, 1, j, c);
      }
    } else {
      UnknownWorksAgain(ds[1].ledger, broker, reached, ks[1].rows, ks[1].records, ks[1].now, c);
    }
  }
}
