/** Stale-order management and the operator's cancel-all, on a ledger that is
    level with truthful records: they only ever move statuses. */
module ManageTruth {
  import opened Wrappers
  import opened Text
  import opened LedgerTables
  import opened LedgerInvariant
  import opened LedgerRuns
  import opened BrokerRecords
  import opened Reconciliation
  import opened OrderManagement
  import opened TruthfulBroker
  import opened ReconcileTruth
  import opened PassTruth

  /** `m` is `l` with, at most, a status of order `c` that the broker justifies. */
  ghost predicate StatusStep(l: Ledger, m: Ledger, broker: map<string, BrokerOrder>, c: string) {
    && c in l.orders && c in m.orders && m == PutOrder(l, c, m.orders[c])
    && SameAccount(l.orders[c], m.orders[c]) && SameIdentity(l.orders[c], m.orders[c])
    && (l.orders[c].status.Terminal() ==> m.orders[c].status.Terminal())
    && (m.orders[c] == l.orders[c] || (l.orders[c].brokerId.Some? && !Unsent(m.orders[c].status)))
    && (m.orders[c].status.Terminal() ==>
          && m.orders[c].brokerId.Some? && m.orders[c].brokerId.value in broker
          && broker[m.orders[c].brokerId.value].Finished() && m.orders[c].filled == broker[m.orders[c].brokerId.value].filled)
  }

  ghost predicate AllLevel(l: Ledger, records: seq<Record>) {
    forall c :: c in l.orders && RecordOf(l.orders[c], records).Some? ==>
      Level(l.orders[c], RecordOf(l.orders[c], records).value)
  }

  lemma StatusStepKeeps(l: Ledger, m: Ledger, broker: map<string, BrokerOrder>, reached: set<string>, c: string, records: seq<Record>)
    requires PassReady(l, broker, reached) && StatusStep(l, m, broker, c) && AllLevel(l, records)
    ensures PassReady(m, broker, reached) && AllLevel(m, records)
  {
    hide Mirrors, OpenQuantity, SalesTakenIn, FindRecord;
    PlacedIn(l, broker, c);
    StatusMirrors(l, broker, c, m.orders[c]);
    SalesStay(l, m);
    forall d | d in reached && d in m.orders
      ensures SaleCovered(m, d)
    {
      assert SaleCovered(l, d);
    }
  }

  lemma SalesStay(l: Ledger, m: Ledger)
    requires SalesTakenIn(l) && m.fills == l.fills && m.applied == l.applied
    ensures SalesTakenIn(m)
  {
  }

  /** Copying the record's columns onto an order that is level with it. */
  lemma CopyTruth(l: Ledger, broker: map<string, BrokerOrder>, c: string, s: Status, rec: Record, now: int)
    requires Ready(l, broker, c, rec) && Level(l.orders[c], rec) && !l.orders[c].status.Terminal()
    requires (s.Terminal() ==> broker[rec.number].Finished()) && !Unsent(s)
    ensures CopyStatus(l, c, s, rec, now).Done?
    ensures var m := CopyStatus(l, c, s, rec, now).value.0; StatusStep(l, m, broker, c) && m.orders[c].status == s
  {
    hide Mirrors;
    ReadyFacts(l, broker, c, rec);
    if rec.filled > 0 {
      MeanPositive(rec.average, rec.filled, broker[rec.number].notional);
    }
  }

  lemma SetAsideTruth(d: Desk, broker: map<string, BrokerOrder>, c: string, now: int)
    requires c in d.ledger.orders && !Blank(c) && !d.ledger.orders[c].status.Terminal() && d.ledger.orders[c].brokerId.Some?
    ensures SetAside(d, c, now) == d.(ledger := SetAside(d, c, now).ledger, unknown := d.unknown + 1)
    ensures StatusStep(d.ledger, SetAside(d, c, now).ledger, broker, c)
  {
    assert "order_management"[0] == 'o';
  }

  lemma StepsCompose(l: Ledger, m: Ledger, n: Ledger, broker: map<string, BrokerOrder>, c: string)
    requires StatusStep(l, m, broker, c) && StatusStep(m, n, broker, c)
    ensures StatusStep(l, n, broker, c)
  {
  }

  lemma NoStep(l: Ledger, broker: map<string, BrokerOrder>, c: string)
    requires c in l.orders && !l.orders[c].status.Terminal()
    ensures StatusStep(l, l, broker, c)
  {
  }

  lemma RequestTruth(d: Desk, broker: map<string, BrokerOrder>, c: string, rec: Record, acknowledged: bool, now: int)
    requires Ready(d.ledger, broker, c, rec) && Level(d.ledger.orders[c], rec) && !d.ledger.orders[c].status.Terminal()
    ensures var e := RequestCancel(d, c, rec, acknowledged, now);
            e.error == d.error && StatusStep(d.ledger, e.ledger, broker, c) && !e.ledger.orders[c].status.Terminal()
  {
    hide Mirrors;
    ReadyFacts(d.ledger, broker, c, rec);
    CopyTruth(d.ledger, broker, c, CancelPending, rec, now);
    var l := CopyStatus(d.ledger, c, CancelPending, rec, now).value.0;
    if !acknowledged {
      var asked := d.(ledger := l, sent := d.sent + [c]);
      SetAsideTruth(asked, broker, c, now);
      StepsCompose(d.ledger, l, SetAside(asked, c, now).ledger, broker, c);
    }
  }

  lemma ManageRowTruth(d: Desk, broker: map<string, BrokerOrder>, c: string, records: seq<Record>,
                       acknowledged: set<string>, m: Market, policy: Policy)
    requires Mirrors(d.ledger, broker) && Truthful(records, broker) && AllLevel(d.ledger, records)
    requires c in d.ledger.orders && !d.ledger.orders[c].status.Terminal()
    ensures var e := ManageRow(d, c, d.ledger.orders[c], records, acknowledged, m, policy);
            e.error == d.error && StatusStep(d.ledger, e.ledger, broker, c)
  {
    hide SetAside, RequestCancel, CopyStatus, Mirrors, FindRecord;
    var local := d.ledger.orders[c];
    var rec := RecordOf(local, records);
    PlacedIn(d.ledger, broker, c);
    NoStep(d.ledger, broker, c);
    if local.brokerId.Some? {
      SetAsideTruth(d, broker, c, m.now);
    }
    if rec.Some? {
      assert Ready(d.ledger, broker, c, rec.value);
      RequestTruth(d, broker, c, rec.value, rec.value.number in acknowledged, m.now);
      var s := LocalStatus(rec.value.status);
      var done := s.Some? && s.value.Terminal();
      CopyTruth(d.ledger, broker, c, if done then s.value else CancelPending, rec.value, m.now);
    }
  }

  lemma CancelBuyRowTruth(d: Desk, broker: map<string, BrokerOrder>, c: string, records: seq<Record>,
                          acknowledged: set<string>, now: int)
    requires Mirrors(d.ledger, broker) && Truthful(records, broker) && AllLevel(d.ledger, records)
    requires c in d.ledger.orders && !d.ledger.orders[c].status.Terminal() && d.ledger.orders[c].brokerId.Some?
    ensures var e := CancelBuyRow(d, c, d.ledger.orders[c], records, acknowledged, now);
            e.error == d.error && StatusStep(d.ledger, e.ledger, broker, c)
  {
    hide SetAside, RequestCancel, CopyStatus, Mirrors, FindRecord;
    var rec := RecordOf(d.ledger.orders[c], records);
    PlacedIn(d.ledger, broker, c);
    NoStep(d.ledger, broker, c);
    SetAsideTruth(d, broker, c, now);
    if rec.Some? {
      assert Ready(d.ledger, broker, c, rec.value);
      RequestTruth(d, broker, c, rec.value, rec.value.number in acknowledged, now);
      CopyTruth(d.ledger, broker, c, CancelPending, rec.value, now);
    }
  }

  /** What a whole loop leaves. */
  ghost predicate DeskDone(d: Desk, e: Desk, broker: map<string, BrokerOrder>, reached: set<string>, rows: seq<string>, records: seq<Record>) {
    && e.error == d.error && PassReady(e.ledger, broker, reached) && AllLevel(e.ledger, records)
    && PassEffect(d.ledger, e.ledger, rows) && e.ledger.positions == d.ledger.positions
  }

  lemma DeskStep(d: Desk, e: Desk, f: Desk, broker: map<string, BrokerOrder>, reached: set<string>, rows: seq<string>, c: string, records: seq<Record>)
    requires DeskDone(d, e, broker, reached, rows, records) && c in d.ledger.orders
    requires f.error == e.error && StatusStep(e.ledger, f.ledger, broker, c)
    ensures DeskDone(d, f, broker, reached, rows + [c], records)
  {
    hide PassReady, AllLevel;
    StatusStepKeeps(e.ledger, f.ledger, broker, reached, c, records);
  }

  lemma {:induction false} ManageRowsTruth(d: Desk, broker: map<string, BrokerOrder>, reached: set<string>, rows: seq<string>,
                                           records: seq<Record>, acknowledged: set<string>, m: Market, policy: Policy)
    requires d.error.None? && PassReady(d.ledger, broker, reached) && Truthful(records, broker) && AllLevel(d.ledger, records)
    requires NoRepeats(rows) && forall c :: c in rows ==> c in d.ledger.orders && !d.ledger.orders[c].status.Terminal()
    ensures DeskDone(d, ManageRows(d, d.ledger.orders, rows, records, acknowledged, m, policy), broker, reached, rows, records)
  {
    hide Mirrors, SalesTakenIn, OneLiveSale, CoveredSales, AllLevel, ManageRow;
    if rows != [] {
      var front, c := rows[..|rows| - 1], rows[|rows| - 1];
      assert rows == front + [c];
      assert c in rows && c !in front && forall b :: b in front ==> b in rows;
      ManageRowsTruth(d, broker, reached, front, records, acknowledged, m, policy);
      var e := ManageRows(d, d.ledger.orders, front, records, acknowledged, m, policy);
      ManageRowTruth(e, broker, c, records, acknowledged, m, policy);
      DeskStep(d, e, ManageRow(e, c, e.ledger.orders[c], records, acknowledged, m, policy), broker, reached, front, c, records);
    }
  }

  lemma {:induction false} CancelBuyRowsTruth(d: Desk, broker: map<string, BrokerOrder>, reached: set<string>, rows: seq<string>,
                                              records: seq<Record>, acknowledged: set<string>, now: int)
    requires d.error.None? && PassReady(d.ledger, broker, reached) && Truthful(records, broker) && AllLevel(d.ledger, records)
    requires NoRepeats(rows) && forall c :: c in rows ==> c in d.ledger.orders && !d.ledger.orders[c].status.Terminal() && d.ledger.orders[c].brokerId.Some?
    ensures DeskDone(d, CancelBuyRows(d, d.ledger.orders, rows, records, acknowledged, now), broker, reached, rows, records)
  {
    hide Mirrors, SalesTakenIn, OneLiveSale, CoveredSales, AllLevel, CancelBuyRow;
    if rows != [] {
      var front, c := rows[..|rows| - 1], rows[|rows| - 1];
      assert rows == front + [c];
      assert c in rows && c !in front && forall b :: b in front ==> b in rows;
      CancelBuyRowsTruth(d, broker, reached, front, records, acknowledged, now);
      var e := CancelBuyRows(d, d.ledger.orders, front, records, acknowledged, now);
      CancelBuyRowTruth(e, broker, c, records, acknowledged, now);
      DeskStep(d, e, CancelBuyRow(e, c, e.ledger.orders[c], records, acknowledged, now), broker, reached, front, c, records);
    }
  }
}
