/** When a supervisor pass has nothing to explain, and what the two flags say after it. */
module SilentPass {
  import opened Wrappers
  import opened Text
  import opened LedgerTables
  import opened LedgerInvariant
  import opened LedgerRuns
  import opened BrokerRecords
  import opened Reconciliation
  import opened OrderManagement
  import opened TruthfulBroker
  import opened ReconcileTruth
  import opened PassTruth
  import opened ReconcileTheorems
  import opened ManageTruth
  import opened ServiceRun
  import opened ServiceSafety
  import opened ServiceTheorems
  import opened BuyGuard
  import opened CancelOnce
  import opened AskedAgain

  // ------------------------------------------------------ the reasons of the rows

  /** A BUY's decision is recorded and its plan can be used. */
  predicate PlanReady(decisions: map<string, Decision>, o: Order) {
    o.signal.Some? && o.signal.value in decisions && EntryPlan(decisions[o.signal.value]).WellFormed()
  }

  /** Nothing is left to explain about an order the pass has been through. */
  ghost predicate Quiet(o: Order, m: Ledger, c: string, records: seq<Record>) {
    && o.status != Unknown && RecordOf(o, records).Some? && (o.side == Buy ==> PlanReady(m.decisions, o))
    && Unapplied(m.fills, m.applied, c) == []
  }

  lemma TakingFailsIff(l: Ledger, c: string, o: Order)
    requires LedgerOk(l) && c in l.orders && !Blank(c) && o.side == Buy
    ensures MaterializeLocal(l, c, o).Done? ==> PlanReady(l.decisions, o)
    ensures MaterializeLocal(l, c, o).Raised? && PlanReady(l.decisions, o) ==> Unapplied(l.fills, l.applied, c) != []
  {
    hide LedgerOk, Unapplied, TakeIn;
  }

  /** A row adds a reason exactly when its order is not quiet then. */
  lemma RowSilentIff(p: Progress, broker: map<string, BrokerOrder>, c: string, records: seq<Record>, now: int)
    requires p.error.None? && RowReady(p.ledger, broker, c) && Truthful(records, broker)
    ensures var q := ReconcileRow(p, c, p.ledger.orders[c], records, now);
            q.tally.reasons == p.tally.reasons <==> Quiet(p.ledger.orders[c], q.ledger, c, records)
  {
    hide Mirrors, AdoptFills, AdoptStatus, RowDone, Adopted, Unapplied, SalesTakenIn, SaleCovered, PlanReady, FindRecord;
    var local := p.ledger.orders[c];
    var p1 := if local.status == Unknown then p.Because(LocalUnknown(c)) else p;
    PlacedIn(p.ledger, broker, c);
    var found := RecordOf(local, records);
    if found.Some? {
      var rec := found.value;
      assert Ready(p1.ledger, broker, c, rec);
      ReadyFacts(p.ledger, broker, c, rec);
      var l1, news := AdoptRow(p1, broker, c, rec, now);
      var p2 := AdoptFills(p1, c, local, rec, now).0;
      AdoptedReady(p.ledger, l1, broker, c, rec, news);
      AdoptedFacts(p.ledger, l1, broker, c, rec, news);
      ConfirmTruth(p2, broker, c, local, rec, now);
      StatusSilentIff(p2, broker, c, local, rec, now, p.ledger, news);
    }
  }

  lemma StatusSilentIff(p2: Progress, broker: map<string, BrokerOrder>, c: string, local: Order, rec: Record, now: int, l: Ledger, news: seq<Fill>)
    requires RowReady(l, broker, c) && local == l.orders[c] && Adopted(l, p2.ledger, broker, c, rec, news) && LocalStatus(rec.status).Some?
    requires !Blank(c) && p2.ledger.decisions == l.decisions
    ensures var q := AdoptStatus(p2, c, local, rec, now);
            && |q.tally.reasons| >= |p2.tally.reasons|
            && (q.tally.reasons == p2.tally.reasons <==>
                  (local.side == Buy ==> PlanReady(q.ledger.decisions, local)) && Unapplied(q.ledger.fills, q.ledger.applied, c) == [])
  {
    hide Mirrors, AdoptStatus, Adopted, Unapplied, SalesTakenIn, SaleCovered, PlanReady, RowDone, MaterializeLocal, ReconcileTruth.Confirmed, OpenQuantity, RowWritten;
    AdoptedReady(l, p2.ledger, broker, c, rec, news);
    ConfirmTruth(p2, broker, c, local, rec, now);
    if local.side == Sell {
      SaleRow(p2.(ledger := l), p2.ledger, broker, c, rec, now, news);
      assert p2.(ledger := l).(ledger := p2.ledger) == p2;
    } else {
      ConfirmedRow(l, p2.ledger, broker, c, rec, now, news);
      var l2 := ReconcileTruth.Confirmed(p2.ledger, c, local, rec, now);
      MirrorsLedger(l2, broker);
      TakingFailsIff(l2, c, local);
      TakeEffect(l2, broker, c, local);
    }
  }

  lemma MirrorsLedger(l: Ledger, broker: map<string, BrokerOrder>)
    requires Mirrors(l, broker)
    ensures LedgerOk(l)
  {
  }

  /** A row takes fills in for its own order only, and forgets none. */
  ghost predicate TakesOwn(l: Ledger, m: Ledger, c: string) {
    && (forall f :: f in m.applied ==> f in l.applied || f.client == c)
    && (forall f :: f in l.fills ==> f in m.fills)
  }

  lemma RowTakesOwn(p: Progress, c: string, local: Order, records: seq<Record>, now: int)
    ensures TakesOwn(p.ledger, ReconcileRow(p, c, local, records, now).ledger, c)
  {
    hide IncrementalPrice, FindRecord, RestFill, AdoptStatus;
    var p1 := if local.status == Unknown then p.Because(LocalUnknown(c)) else p;
    var rec := RecordOf(local, records);
    if rec.Some? && local.brokerId.value != "" && Objection(c, local, rec.value).None? {
      FillsTakeOwn(p1, c, local, rec.value, now);
      var q := AdoptFills(p1, c, local, rec.value, now);
      if q.1 {
        StatusTakesOwn(q.0, c, local, rec.value, now);
      }
    }
  }

  lemma FillsTakeOwn(p: Progress, c: string, local: Order, rec: Record, now: int)
    requires local.filled <= rec.filled
    ensures TakesOwn(p.ledger, AdoptFills(p, c, local, rec, now).0.ledger, c)
  {
    hide IncrementalPrice, Blank, StockCode, HasFill, RestFill;
    forall f | f in p.ledger.fills
      ensures f in AdoptFills(p, c, local, rec, now).0.ledger.fills
    {
      if local.filled < rec.filled && IncrementalPrice(local, rec).Done? {
        var r := ApplyFill(p.ledger, RestFill(c, rec, rec.filled - local.filled, IncrementalPrice(local, rec).value, now));
        if r.Done? && r.value.1 {
          ApplyFillRecords(p.ledger, RestFill(c, rec, rec.filled - local.filled, IncrementalPrice(local, rec).value, now));
          InsertFillRows(p.ledger.fills, RowOf(p.ledger, RestFill(c, rec, rec.filled - local.filled, IncrementalPrice(local, rec).value, now)));
        }
      }
    }
  }

  lemma StatusTakesOwn(p: Progress, c: string, local: Order, rec: Record, now: int)
    ensures TakesOwn(p.ledger, AdoptStatus(p, c, local, rec, now).ledger, c)
  {
    hide Blank, TakeInAll;
  }

  lemma WasTaken(l: Ledger, m: Ledger, c: string, f: Fill)
    requires f.client != c && TakesOwn(l, m, c) && LedgerOk(m) && f in m.fills && HasFill(m.applied, f.id)
    ensures HasFill(l.applied, f.id)
  {
    hide OrderRows, PositionRows;
    var i :| 0 <= i < |m.applied| && m.applied[i].id == f.id;
    assert m.applied[i] in m.applied;
    SameIdSameFill(m.fills, m.applied[i], f);
    MemberHasId(l.applied, f);
  }

  /** So what is left to take in of any other order stays as it was. */
  lemma OtherPendingStays(l: Ledger, m: Ledger, c: string, d: string)
    requires d != c && TakesOwn(l, m, c) && LedgerOk(m) && Unapplied(m.fills, m.applied, d) == []
    ensures Unapplied(l.fills, l.applied, d) == []
  {
    hide LedgerOk, Unapplied;
    var fs := Unapplied(l.fills, l.applied, d);
    if fs != [] {
      var f := AMember(fs);
      if HasFill(m.applied, f.id) {
        WasTaken(l, m, c, f);
      } else {
        PendingFill(m, d, f);
      }
      assert false;
    }
  }

  lemma QuietStays(o: Order, l: Ledger, m: Ledger, c: string, d: string, records: seq<Record>)
    requires d != c && TakesOwn(l, m, c) && LedgerOk(m) && m.decisions == l.decisions && NothingElsePending(l, m, c)
    ensures Quiet(o, l, d, records) <==> Quiet(o, m, d, records)
  {
    hide LedgerOk, Unapplied, TakesOwn, PlanReady, FindRecord;
    if Unapplied(m.fills, m.applied, d) == [] {
      OtherPendingStays(l, m, c, d);
    }
  }

  ghost predicate AllQuiet(orders: map<string, Order>, m: Ledger, rows: seq<string>, records: seq<Record>)
    requires forall c :: c in rows ==> c in orders
  {
    forall c :: c in rows ==> Quiet(orders[c], m, c, records)
  }

  lemma NothingElse(l: Ledger, m: Ledger, broker: map<string, BrokerOrder>, c: string, rec: Record, now: int)
    requires c in l.orders && rec.number in broker && RowDone(l, m, broker, c, rec, now)
    ensures NothingElsePending(l, m, c) && m.decisions == l.decisions
  {
    hide Mirrors, SalesTakenIn, OpenQuantity, Unapplied;
  }

  /** Over a true snapshot the rows give no reason if and only if each of their
      orders is known, shown, and taken in, with a usable plan if it is a BUY. */
  lemma {:induction false} RowsSilentIff(p: Progress, broker: map<string, BrokerOrder>, reached: set<string>, rows: seq<string>,
                                         records: seq<Record>, now: int)
    requires p.error.None? && PassReady(p.ledger, broker, reached) && Truthful(records, broker)
    requires NoRepeats(rows) && forall c :: c in rows ==> c in p.ledger.orders
    ensures var q := ReconcileRows(p, p.ledger.orders, rows, records, now);
            && |q.tally.reasons| >= |p.tally.reasons|
            && (q.tally.reasons == p.tally.reasons <==> AllQuiet(p.ledger.orders, q.ledger, rows, records))
  {
    hide Mirrors, Dealt, SalesTakenIn, OneLiveSale, ReconcileRow, RowResult, Quiet, TakesOwn, NothingElsePending, Unapplied;
    if rows != [] {
      var front, c := rows[..|rows| - 1], rows[|rows| - 1];
      assert rows == front + [c];
      assert c in rows && c !in front && forall d :: d in front ==> d in rows;
      RowsSilentIff(p, broker, reached, front, records, now);
      RowsTruth(p, broker, reached, front, records, now);
      var q := ReconcileRows(p, p.ledger.orders, front, records, now);
      assert q.ledger.orders[c] == p.ledger.orders[c];
      var r := ReconcileRow(q, c, q.ledger.orders[c], records, now);
      RowTruth(q, broker, c, records, now);
      RowSilentIff(q, broker, c, records, now);
      RowGrows(q, c, q.ledger.orders[c], records, now);
      RowsTruth(p, broker, reached, rows, records, now);
      OthersAsQuiet(p.ledger.orders, q, r, broker, c, front, records, now);
    }
  }

  /** A row only adds reasons. */
  lemma RowGrows(p: Progress, c: string, local: Order, records: seq<Record>, now: int)
    ensures p.tally.reasons <= ReconcileRow(p, c, local, records, now).tally.reasons
  {
    hide IncrementalPrice, ApplyFill, UpdateStatus, MaterializeLocal, FindRecord, RestFill;
  }

  lemma OthersAsQuiet(orders: map<string, Order>, q: Progress, r: Progress, broker: map<string, BrokerOrder>, c: string, front: seq<string>,
                      records: seq<Record>, now: int)
    requires c in q.ledger.orders && Truthful(records, broker) && RowResult(q, r, broker, c, records, now)
    requires r == ReconcileRow(q, c, q.ledger.orders[c], records, now) && Mirrors(r.ledger, broker)
    requires c !in front && forall d :: d in front ==> d in orders
    ensures AllQuiet(orders, q.ledger, front, records) <==> AllQuiet(orders, r.ledger, front, records)
  {
    hide Mirrors, ReconcileRow, Quiet, TakesOwn, NothingElsePending, RowDone, FindRecord;
    var rec := RecordOf(q.ledger.orders[c], records);
    if rec.Some? {
      NothingElse(q.ledger, r.ledger, broker, c, rec.value, now);
      RowTakesOwn(q, c, q.ledger.orders[c], records, now);
      MirrorsLedger(r.ledger, broker);
      forall d | d in front
        ensures Quiet(orders[d], q.ledger, d, records) <==> Quiet(orders[d], r.ledger, d, records)
      {
        QuietStays(orders[d], q.ledger, r.ledger, c, d, records);
      }
    }
  }

  // -------------------------------------------------------- orders set aside

  /** Some order has become UNKNOWN. */
  ghost predicate SetSome(l: Ledger, m: Ledger) {
    exists c :: c in l.orders && c in m.orders && m.orders[c].status == Unknown && l.orders[c].status != Unknown
  }

  /** One row counts one order set aside, or sets none aside. */
  ghost predicate CountsUnknown(d: Desk, e: Desk, c: string) {
    e.error.None? ==>
      && c in d.ledger.orders && c in e.ledger.orders
      && if e.ledger.orders[c].status == Unknown && d.ledger.orders[c].status != Unknown then e.unknown == d.unknown + 1
         else e.unknown == d.unknown
  }

  lemma SetAsideCounts(d: Desk, c: string, now: int)
    requires c in d.ledger.orders
    ensures var e := SetAside(d, c, now);
            e.error.Some? || (c in e.ledger.orders && e.ledger.orders[c].status == Unknown && e.unknown == d.unknown + 1)
  {
    hide Blank;
  }

  lemma CopyWrites(l: Ledger, c: string, s: Status, rec: Record, now: int)
    requires c in l.orders
    ensures CopyStatus(l, c, s, rec, now).Done? ==>
              var m := CopyStatus(l, c, s, rec, now).value.0;
              c in m.orders && (m.orders[c] == l.orders[c] || m.orders[c].status == s)
  {
    hide Blank;
  }

  lemma RequestCounts(d: Desk, c: string, rec: Record, acknowledged: bool, now: int)
    requires d.error.None? && c in d.ledger.orders && d.ledger.orders[c].status != Unknown
    ensures CountsUnknown(d, RequestCancel(d, c, rec, acknowledged, now), c)
  {
    hide SetAside, CopyStatus;
    CopyWrites(d.ledger, c, CancelPending, rec, now);
    SetAsideCounts(d, c, now);
    var r := CopyStatus(d.ledger, c, CancelPending, rec, now);
    if r.Done? {
      SetAsideCounts(d.(ledger := r.value.0, sent := d.sent + [c]), c, now);
    }
  }

  lemma ManageRowCounts(d: Desk, c: string, records: seq<Record>, acknowledged: set<string>, m: Market, policy: Policy)
    requires d.error.None? && c in d.ledger.orders
    ensures CountsUnknown(d, ManageRow(d, c, d.ledger.orders[c], records, acknowledged, m, policy), c)
  {
    hide SetAside, CopyStatus, RequestCancel, FindRecord, Blank, Stale, SameOrder;
    var local := d.ledger.orders[c];
    var rec := RecordOf(local, records);
    SetAsideCounts(d, c, m.now);
    if rec.Some? {
      var s := LocalStatus(rec.value.status);
      CopyWrites(d.ledger, c, if s.Some? && s.value.Terminal() then s.value else CancelPending, rec.value, m.now);
      if local.status != Unknown {
        RequestCounts(d, c, rec.value, rec.value.number in acknowledged, m.now);
      }
    }
  }

  lemma CancelBuyRowCounts(d: Desk, c: string, records: seq<Record>, acknowledged: set<string>, now: int)
    requires d.error.None? && c in d.ledger.orders && d.ledger.orders[c].status != Unknown
    ensures CountsUnknown(d, CancelBuyRow(d, c, d.ledger.orders[c], records, acknowledged, now), c)
  {
    hide SetAside, CopyStatus, RequestCancel, FindRecord, Blank;
    var rec := RecordOf(d.ledger.orders[c], records);
    SetAsideCounts(d, c, now);
    if rec.Some? {
      RequestCounts(d, c, rec.value, rec.value.number in acknowledged, now);
    }
  }

  /** One more row counted after the rows before it. */
  lemma CountMore(d: Desk, e: Desk, f: Desk, c: string)
    requires d.error.None? && f.error.None? && CountsUnknown(e, f, c) && c in d.ledger.orders && e.ledger.orders.Keys == d.ledger.orders.Keys
    requires e.ledger.orders[c] == d.ledger.orders[c] && f.ledger == PutRow(e.ledger, f.ledger, c)
    requires e.unknown >= d.unknown && (e.unknown > d.unknown <==> SetSome(d.ledger, e.ledger))
    ensures f.unknown >= d.unknown && (f.unknown > d.unknown <==> SetSome(d.ledger, f.ledger))
  {
    if b :| b in d.ledger.orders && e.ledger.orders[b].status == Unknown && d.ledger.orders[b].status != Unknown {
      assert b != c && f.ledger.orders[b] == e.ledger.orders[b];
    }
    if b :| b in d.ledger.orders && b in f.ledger.orders && f.ledger.orders[b].status == Unknown && d.ledger.orders[b].status != Unknown {
      assert b == c || f.ledger.orders[b] == e.ledger.orders[b];
    }
  }

  lemma {:induction false} ManageCounts(d: Desk, rows: seq<string>, records: seq<Record>, acknowledged: set<string>, m: Market, policy: Policy)
    requires d.error.None? && NoRepeats(rows) && forall c :: c in rows ==> c in d.ledger.orders
    ensures var e := ManageRows(d, d.ledger.orders, rows, records, acknowledged, m, policy);
            e.error.None? ==> e.unknown >= d.unknown && (e.unknown > d.unknown <==> SetSome(d.ledger, e.ledger))
  {
    hide ManageRow, SetSome, CountsUnknown, PutRow;
    if rows == [] {
      assert !SetSome(d.ledger, d.ledger) by { NoneSet(d.ledger); }
    } else {
      var front, c := rows[..|rows| - 1], rows[|rows| - 1];
      assert rows == front + [c];
      assert c in rows && c !in front && forall x :: x in front ==> x in rows;
      ManageCounts(d, front, records, acknowledged, m, policy);
      ManageAsks(d, front, records, acknowledged, m, policy);
      var e := ManageRows(d, d.ledger.orders, front, records, acknowledged, m, policy);
      if e.error.None? {
        ManageRowCounts(e, c, records, acknowledged, m, policy);
        ManageRowAsks(e, c, d.ledger.orders[c], records, acknowledged, m, policy);
        var f := ManageRow(e, c, e.ledger.orders[c], records, acknowledged, m, policy);
        if f.error.None? {
          CountMore(d, e, f, c);
        }
      }
    }
  }

  lemma NoneSet(l: Ledger)
    ensures !SetSome(l, l)
  {
  }

  lemma {:induction false} CancelCounts(d: Desk, rows: seq<string>, records: seq<Record>, acknowledged: set<string>, now: int)
    requires d.error.None? && NoRepeats(rows) && forall c :: c in rows ==> c in d.ledger.orders && d.ledger.orders[c].status != Unknown
    ensures var e := CancelBuyRows(d, d.ledger.orders, rows, records, acknowledged, now);
            e.error.None? ==> e.unknown >= d.unknown && (e.unknown > d.unknown <==> SetSome(d.ledger, e.ledger))
  {
    hide CancelBuyRow, SetSome, CountsUnknown, PutRow;
    if rows == [] {
      NoneSet(d.ledger);
    } else {
      var front, c := rows[..|rows| - 1], rows[|rows| - 1];
      assert rows == front + [c];
      assert c in rows && c !in front && forall x :: x in front ==> x in rows;
      CancelCounts(d, front, records, acknowledged, now);
      CancelBuysAsks(d, front, records, acknowledged, now);
      var e := CancelBuyRows(d, d.ledger.orders, front, records, acknowledged, now);
      if e.error.None? {
        CancelBuyRowCounts(e, c, records, acknowledged, now);
        CancelBuyRowAsks(e, c, d.ledger.orders[c], records, acknowledged, now);
        var f := CancelBuyRow(e, c, e.ledger.orders[c], records, acknowledged, now);
        if f.error.None? {
          CountMore(d, e, f, c);
        }
      }
    }
  }

  // ------------------------------------------------------- cancels waited for

  /** An order that is not finished has a marker or is CANCEL_PENDING. */
  ghost predicate Cancelling(l: Ledger, pending: map<string, Marker>, c: string) {
    c in l.orders && !l.orders[c].status.Terminal() && (c in pending || l.orders[c].status == CancelPending)
  }

  ghost predicate SomeCancelling(l: Ledger, pending: map<string, Marker>) {
    exists c :: Cancelling(l, pending, c)
  }

  /** One row counts one cancel waited for, or none. */
  ghost predicate CountsWaiting(d: Desk, e: Desk, c: string) {
    e.waiting == d.waiting + if Cancelling(e.ledger, e.pending, c) then 1 else 0
  }

  lemma FollowWaits(d: Desk, broker: map<string, BrokerOrder>, c: string, rec: Option<Record>, now: int)
    requires d.error.None? && c in d.ledger.orders && !d.ledger.orders[c].status.Terminal() && c in d.pending
    requires rec.Some? ==> Ready(d.ledger, broker, c, rec.value) && Level(d.ledger.orders[c], rec.value)
    ensures CountsWaiting(d, FollowMarker(d, c, d.pending[c], rec, now), c)
  {
    hide Mirrors, CopyStatus;
    if rec.Some? {
      ReadyFacts(d.ledger, broker, c, rec.value);
      var s := LocalStatus(rec.value.status);
      CopyTruth(d.ledger, broker, c, if s.Some? && s.value.Terminal() then s.value else CancelPending, rec.value, now);
    }
  }

  lemma RequestWaits(d: Desk, broker: map<string, BrokerOrder>, c: string, rec: Record, acknowledged: bool, now: int)
    requires d.error.None? && Ready(d.ledger, broker, c, rec) && Level(d.ledger.orders[c], rec)
    requires !d.ledger.orders[c].status.Terminal() && c !in d.pending
    ensures CountsWaiting(d, RequestCancel(d, c, rec, acknowledged, now), c)
  {
    hide Mirrors, CopyStatus, SetAside;
    ReadyFacts(d.ledger, broker, c, rec);
    CopyTruth(d.ledger, broker, c, CancelPending, rec, now);
    SetAsideWaits(d.(ledger := CopyStatus(d.ledger, c, CancelPending, rec, now).value.0, sent := d.sent + [c]), c, now);
  }

  lemma RowWaits(d: Desk, broker: map<string, BrokerOrder>, c: string, records: seq<Record>, acknowledged: set<string>, m: Market, policy: Policy)
    requires d.error.None? && Mirrors(d.ledger, broker) && Truthful(records, broker) && AllLevel(d.ledger, records)
    requires c in d.ledger.orders && !d.ledger.orders[c].status.Terminal()
    ensures CountsWaiting(d, ManageRow(d, c, d.ledger.orders[c], records, acknowledged, m, policy), c)
  {
    hide Mirrors, FindRecord, Stale, SameOrder, CopyStatus, SetAside, FollowMarker, RequestCancel;
    var rec := RecordOf(d.ledger.orders[c], records);
    PlacedIn(d.ledger, broker, c);
    SetAsideWaits(d, c, m.now);
    assert rec.Some? ==> Ready(d.ledger, broker, c, rec.value);
    if c in d.pending {
      FollowWaits(d, broker, c, rec, m.now);
    } else if rec.Some? {
      RequestWaits(d, broker, c, rec.value, rec.value.number in acknowledged, m.now);
    }
  }

  lemma SetAsideWaits(d: Desk, c: string, now: int)
    requires c in d.ledger.orders && !Blank(c)
    ensures var e := SetAside(d, c, now);
            c in e.ledger.orders && e.ledger.orders[c].status == Unknown && e.waiting == d.waiting && e.pending == d.pending
  {
    assert "order_management"[0] == 'o';
  }

  lemma {:induction false} ManageWaits(d: Desk, broker: map<string, BrokerOrder>, reached: set<string>, rows: seq<string>, records: seq<Record>,
                                       acknowledged: set<string>, m: Market, policy: Policy)
    requires d.error.None? && PassReady(d.ledger, broker, reached) && Truthful(records, broker) && AllLevel(d.ledger, records)
    requires NoRepeats(rows) && forall c :: c in rows ==> c in d.ledger.orders && !d.ledger.orders[c].status.Terminal()
    ensures var e := ManageRows(d, d.ledger.orders, rows, records, acknowledged, m, policy);
            e.waiting >= d.waiting && (e.waiting > d.waiting <==> exists c :: c in rows && Cancelling(e.ledger, e.pending, c))
  {
    hide ManageRow, Mirrors, SalesTakenIn, OneLiveSale, CoveredSales, AllLevel, Cancelling;
    if rows != [] {
      var front, c := rows[..|rows| - 1], rows[|rows| - 1];
      assert rows == front + [c];
      assert c in rows && c !in front && forall x :: x in front ==> x in rows;
      ManageWaits(d, broker, reached, front, records, acknowledged, m, policy);
      ManageRowsTruth(d, broker, reached, front, records, acknowledged, m, policy);
      var e := ManageRows(d, d.ledger.orders, front, records, acknowledged, m, policy);
      assert e.ledger.orders[c] == d.ledger.orders[c];
      RowWaits(e, broker, c, records, acknowledged, m, policy);
      RowMarks(e, c, records, acknowledged, m, policy);
      ManageRowAsks(e, c, e.ledger.orders[c], records, acknowledged, m, policy);
      WaitMore(e, ManageRow(e, c, e.ledger.orders[c], records, acknowledged, m, policy), front, c);
    }
  }

  lemma WaitMore(e: Desk, f: Desk, front: seq<string>, c: string)
    requires c !in front && c in e.ledger.orders && c in f.ledger.orders && f.ledger == PutRow(e.ledger, f.ledger, c)
    requires forall b :: b != c ==> (b in f.pending <==> b in e.pending)
    ensures (exists b :: b in front + [c] && Cancelling(f.ledger, f.pending, b)) <==>
              (exists b :: b in front && Cancelling(e.ledger, e.pending, b)) || Cancelling(f.ledger, f.pending, c)
  {
    assert forall b :: b in front ==> (Cancelling(f.ledger, f.pending, b) <==> Cancelling(e.ledger, e.pending, b));
    assert forall b :: b in front + [c] <==> b in front || b == c;
    if Cancelling(f.ledger, f.pending, c) {
      assert c in front + [c];
    }
  }

  // -------------------------------------------------------------- the flags

  /** The snapshot shows nothing working that no selected row is about. */
  ghost predicate AllOurs(l: Ledger, rows: seq<string>, records: seq<Record>)
    requires forall c :: c in rows ==> c in l.orders
  {
    forall rec :: rec in records && (rec.remaining > 0 || rec.status == Unfilled || rec.status == PartlyFilled) ==>
      exists c :: c in rows && l.orders[c].brokerId == Some(rec.number)
  }

  /** Nothing is left to explain after the pass: every selected order is known,
      shown and taken in; the broker works on nothing else; the account holds
      what the positions do; and neither the operator's cancel-all nor the
      stale-order pass had to set an order aside. */
  ghost predicate NothingToExplain(w: World, s: Snapshot)
    requires Sensible(w, s)
  {
    var q := AfterReconcile(w, s);
    var d := AfterCancels(w, s, q.ledger);
    && (forall c :: Selected(w.ledger, c) ==> Quiet(w.ledger.orders[c], q.ledger, c, s.records))
    && AllOurs(w.ledger, s.rows, s.records)
    && s.account.Some? && (forall symbol :: OpenQuantity(q.ledger.positions, symbol) == QuantityIn(s.account.value, symbol))
    && !SetSome(q.ledger, d.ledger) && !SetSome(d.ledger, AfterManage(s, d).ledger)
  }

  lemma OursIff(w: World, s: Snapshot)
    requires Safe(w) && RowsOf(w.ledger, s.rows) && Truthful(s.records, w.broker)
    ensures forall c :: c in s.rows ==> c in w.ledger.orders
    ensures AllOurs(w.ledger, s.rows, s.records) <==> forall n :: !Unexplained(w.ledger.orders, s.rows, s.records, n)
  {
    hide SalesTakenIn, OneLiveSale, CoveredSales, BrokerBook, CallLog, TraderOk, ExitsBounded, LedgerOk, Placed, Reports;
    SelectedExist(w.ledger, s.rows);
    if AllOurs(w.ledger, s.rows, s.records) {
      forall n
        ensures !Unexplained(w.ledger.orders, s.rows, s.records, n)
      {
        if rec :| rec in s.records && rec.number == n && (rec.remaining > 0 || rec.status == Unfilled || rec.status == PartlyFilled) {
          assert !Blank(n) && n != "";
          var c :| c in s.rows && w.ledger.orders[c].brokerId == Some(rec.number);
        }
      }
    } else {
      var rec :| rec in s.records && (rec.remaining > 0 || rec.status == Unfilled || rec.status == PartlyFilled)
                 && !exists c :: c in s.rows && w.ledger.orders[c].brokerId == Some(rec.number);
      assert Unexplained(w.ledger.orders, s.rows, s.records, rec.number);
    }
  }

  lemma ReasonsIff(w: World, s: Snapshot)
    requires Safe(w) && Sensible(w, s)
    ensures AfterReconcile(w, s).tally.reasons == [] <==>
              forall c :: Selected(w.ledger, c) ==> Quiet(w.ledger.orders[c], AfterReconcile(w, s).ledger, c, s.records)
  {
    hide Mirrors, SalesTakenIn, OneLiveSale, CoveredSales, BrokerBook, CallLog, TraderOk, ExitsBounded, Quiet, ReconcileRows, Truthful, Selected, AfterCancels, AfterManage;
    SelectedExist(w.ledger, s.rows);
    RowsSilentIff(Progress(w.ledger, NOTHING_YET, None), w.broker, Reached(w), s.rows, s.records, s.market.now);
  }

  /** What both passes after the reconcile counted. */
  lemma CountsIff(w: World, s: Snapshot)
    requires Safe(w) && Sensible(w, s)
    ensures var q := AfterReconcile(w, s);
            var d := AfterCancels(w, s, q.ledger);
            var e := AfterManage(s, d);
            && q.error.None? && d.error.None? && e.error.None?
            && (e.unknown > 0 <==> SetSome(q.ledger, d.ledger) || SetSome(d.ledger, e.ledger))
            && (e.waiting > 0 <==> SomeCancelling(e.ledger, e.pending))
  {
    hide Mirrors, SalesTakenIn, OneLiveSale, CoveredSales, AllLevel, CancelBuyRows, ManageRows, ReconcileRows, Unapplied, SetSome, Cancelling,
         BrokerBook, CallLog, TraderOk, ExitsBounded, Truthful, RowsOf;
    var q := AfterReconcile(w, s);
    PassRefinesBroker(w.ledger, w.broker, Reached(w), s.rows, s.records, s.market.now);
    LevelAll(q.ledger, s.records);
    var d := AfterCancels(w, s, q.ledger);
    CancelsKeep(w, s, q.ledger, Reached(w));
    var start := Desk(q.ledger, w.pending, [], 0, 0, 0, None);
    if w.cancelRequested {
      CancelCounts(start, s.buys, s.records, s.acknowledged, s.market.now);
    } else {
      NoneSet(q.ledger);
    }
    var m := d.(waiting := 0);
    ManageCounts(m, s.open, s.records, s.acknowledged, s.market, s.policy);
    ManageRowsTruth(m, w.broker, Reached(w), s.open, s.records, s.acknowledged, s.market, s.policy);
    ManageWaits(m, w.broker, Reached(w), s.open, s.records, s.acknowledged, s.market, s.policy);
    OnlyOpenCancel(m, AfterManage(s, d), s.open);
  }

  lemma OnlyOpenCancel(d: Desk, e: Desk, rows: seq<string>)
    requires PassEffect(d.ledger, e.ledger, rows) && ListOf(rows, OpenIds(d.ledger))
    ensures (exists c :: c in rows && Cancelling(e.ledger, e.pending, c)) <==> SomeCancelling(e.ledger, e.pending)
  {
    if c :| Cancelling(e.ledger, e.pending, c) {
      assert c in rows;
    }
  }

  /** After a pass over a true snapshot `operator_review` is down if and only if
      nothing is left to explain, and `block_new_entries` if and only if besides
      no unfinished order has a cancel marker or is CANCEL_PENDING. */
  lemma FlagsSayIff(w: World, s: Snapshot)
    requires Safe(w) && Sensible(w, s)
    ensures var v := AfterSupervise(w, s);
            && (!v.review <==> NothingToExplain(w, s))
            && (!v.blockEntries <==> NothingToExplain(w, s) && !SomeCancelling(v.ledger, v.pending))
  {
    hide Safe, SomeCancelling, SetSome, Quiet, AllOurs, Unexplained, OpenQuantity, Truthful, ReconcileRows, CancelBuyRows, ManageRows, Selected, AfterCancels, AfterManage;
    SnapshotIs(w, s);
    OursIff(w, s);
    ReasonsIff(w, s);
    CountsIff(w, s);
  }

  lemma SnapshotIs(w: World, s: Snapshot)
    requires Sensible(w, s)
    ensures RowsOf(w.ledger, s.rows) && Truthful(s.records, w.broker)
  {
    hide ReconcileRows, CancelBuyRows, ManageRows;
  }

  /** The same in every run: a pass with nothing to explain takes both flags down,
      the second unless a cancel is still waited for; any other pass raises both. */
  lemma QuietPassLowersFlags(ws: seq<World>, es: seq<Event>, i: nat)
    requires Run(ws, es) && i < |es| && es[i].Supervise?
    ensures Sensible(ws[i], es[i].snapshot)
    ensures if NothingToExplain(ws[i], es[i].snapshot)
            then !ws[i + 1].review && (ws[i + 1].blockEntries <==> SomeCancelling(ws[i + 1].ledger, ws[i + 1].pending))
            else ws[i + 1].review && ws[i + 1].blockEntries
  {
    hide Safe, Next, Enabled, Sensible, AfterSupervise, NothingToExplain, SomeCancelling;
    EveryRunSafe(ws, es, i);
    assert Enabled(ws[i], es[i]) && ws[i + 1] == Next(ws[i], es[i]);
    SuperviseStep(ws[i], es[i]);
    FlagsSayIff(ws[i], es[i].snapshot);
  }

  /** A true snapshot in which an order the service has no row for is not finished
      leaves something to explain, under that order's number. */
  lemma ForeignOrderIsNamed(l: Ledger, broker: map<string, BrokerOrder>, rows: seq<string>, records: seq<Record>, n: string)
    requires Truthful(records, broker) && (forall c :: c in rows ==> c in l.orders) && n in broker && !broker[n].Finished()
    requires (exists rec :: rec in records && rec.number == n) && forall c :: c in rows ==> l.orders[c].brokerId != Some(n)
    ensures Unexplained(l.orders, rows, records, n)
  {
    var rec :| rec in records && rec.number == n;
    assert Reports(rec, broker[n]);
  }
}
