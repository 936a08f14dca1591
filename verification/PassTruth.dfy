/** A whole reconcile pass over truthful records. */
module PassTruth {
  import opened Wrappers
  import opened Text
  import opened LedgerTables
  import opened LedgerInvariant
  import opened LedgerRuns
  import opened BrokerRecords
  import opened Reconciliation
  import opened TruthfulBroker
  import opened ReconcileTruth

  predicate LiveSale(o: Order) {
    o.side == Sell && !o.status.Terminal()
  }

  /** A symbol has at most one unresolved SELL order. */
  ghost predicate OneLiveSale(orders: map<string, Order>) {
    forall c, d :: (c in orders && d in orders && LiveSale(orders[c]) && LiveSale(orders[d])
                    && orders[c].symbol == orders[d].symbol) ==> c == d
  }

  /** Every live sale the broker may know of asks for no more than is held. */
  ghost predicate CoveredSales(l: Ledger, reached: set<string>) {
    forall c :: c in reached && c in l.orders ==> SaleCovered(l, c)
  }

  ghost predicate PassReady(l: Ledger, broker: map<string, BrokerOrder>, reached: set<string>) {
    && Mirrors(l, broker) && SalesTakenIn(l) && OneLiveSale(l.orders) && CoveredSales(l, reached)
    && (forall c :: c in l.orders && l.orders[c].brokerId.Some? ==> c in reached)
  }

  /** From `l` to `m` orders kept their identity, fills and terminal status, and
      only listed ones with a broker number were touched. */
  ghost predicate PassEffect(l: Ledger, m: Ledger, rows: seq<string>) {
    && m.decisions == l.decisions && m.orders.Keys == l.orders.Keys
    && forall c :: c in l.orders ==>
         && SameIdentity(l.orders[c], m.orders[c]) && l.orders[c].filled <= m.orders[c].filled
         && (l.orders[c].status.Terminal() ==> m.orders[c].status.Terminal())
         && (c !in rows || l.orders[c].brokerId.None? ==> m.orders[c] == l.orders[c])
  }

  lemma EffectKeeps(l: Ledger, m: Ledger, c: string, reached: set<string>)
    requires c in l.orders && RowEffect(l, m, c) && OneLiveSale(l.orders) && CoveredSales(l, reached)
    requires l.orders[c].filled < m.orders[c].filled ==> c in reached
    ensures OneLiveSale(m.orders) && CoveredSales(m, reached)
  {
    hide OpenQuantity;
    forall d | d in reached && d in m.orders
      ensures SaleCovered(m, d)
    {
      assert SaleCovered(l, d);
      if LiveSale(m.orders[d]) {
        var s := m.orders[d].symbol;
        assert OpenQuantity(m.positions, s) >= OpenQuantity(l.positions, s) - SoldSince(l, m, c, s);
      }
    }
  }

  ghost predicate NoRepeats(rows: seq<string>) {
    forall i, j :: 0 <= i < j < |rows| ==> rows[i] != rows[j]
  }

  /** What is known of an order a pass has been through. */
  ghost predicate Dealt(o: Order, m: Ledger, c: string, records: seq<Record>, now: int, clean: bool)
    requires c in m.orders
  {
    var rec := RecordOf(o, records);
    && (rec.Some? ==> Level(m.orders[c], rec.value) && Stamped(m.orders[c], now)
                      && LocalStatus(rec.value.status).Some?
                      && m.orders[c].status == NextStatus(o, LocalStatus(rec.value.status).value))
    && (clean ==> rec.Some? && Unapplied(m.fills, m.applied, c) == [])
  }

  ghost predicate PassDone(p: Progress, q: Progress, broker: map<string, BrokerOrder>, reached: set<string>,
                           rows: seq<string>, records: seq<Record>, now: int)
  {
    && q.error.None? && PassReady(q.ledger, broker, reached) && PassEffect(p.ledger, q.ledger, rows)
    && (forall r :: r in p.tally.reasons ==> r in q.tally.reasons)
    && (forall r :: r in q.tally.reasons ==> r in p.tally.reasons || Honest(p.ledger, r))
    && (forall c :: c in rows && c in p.ledger.orders && c in q.ledger.orders ==>
          Dealt(p.ledger.orders[c], q.ledger, c, records, now, Clean(q.tally.reasons)))
  }

  lemma DealtStays(o: Order, l: Ledger, m: Ledger, c: string, d: string, records: seq<Record>, now: int, was: bool, clean: bool)
    requires d != c && d in l.orders && c in l.orders && RowEffect(l, m, c)
    requires Dealt(o, l, d, records, now, was) && (clean ==> was)
    ensures Dealt(o, m, d, records, now, clean)
  {
    hide Unapplied, OpenQuantity;
  }

  lemma DealtStill(o: Order, l: Ledger, d: string, records: seq<Record>, now: int, was: bool)
    requires d in l.orders && Dealt(o, l, d, records, now, was)
    ensures Dealt(o, l, d, records, now, false)
  {
  }

  lemma ReadyStays(l: Ledger, m: Ledger, broker: map<string, BrokerOrder>, reached: set<string>, c: string, rec: Record, now: int)
    requires PassReady(l, broker, reached) && c in l.orders && rec.number in broker && l.orders[c].brokerId.Some?
    requires RowDone(l, m, broker, c, rec, now)
    ensures PassReady(m, broker, reached)
  {
    hide Mirrors, SalesTakenIn, OpenQuantity, Unapplied;
    EffectKeeps(l, m, c, reached);
  }

  lemma NewlyDealt(q: Progress, r: Progress, broker: map<string, BrokerOrder>, c: string, records: seq<Record>, now: int)
    requires c in q.ledger.orders && c in r.ledger.orders && Truthful(records, broker)
    requires RowResult(q, r, broker, c, records, now)
    ensures Dealt(q.ledger.orders[c], r.ledger, c, records, now, Clean(r.tally.reasons))
  {
    hide Mirrors, Unapplied, OpenQuantity, SalesTakenIn;
  }

  /** One more row keeps everything the rows before it established. */
  lemma OneMoreRow(p: Progress, q: Progress, r: Progress, broker: map<string, BrokerOrder>, reached: set<string>,
                   rows: seq<string>, c: string, records: seq<Record>, now: int)
    requires PassDone(p, q, broker, reached, rows, records, now) && Truthful(records, broker)
    requires c in p.ledger.orders && c !in rows && c in q.ledger.orders && RowResult(q, r, broker, c, records, now)
    ensures PassDone(p, r, broker, reached, rows + [c], records, now)
  {
    hide Mirrors, Unapplied, OpenQuantity, PassReady, NothingElsePending, Dealt, SalesTakenIn, FindRecord;
    var rec := RecordOf(q.ledger.orders[c], records);
    if rec.Some? {
      ReadyStays(q.ledger, r.ledger, broker, reached, c, rec.value, now);
    }
    forall d | d in rows + [c] && d in p.ledger.orders && d in r.ledger.orders
      ensures Dealt(p.ledger.orders[d], r.ledger, d, records, now, Clean(r.tally.reasons))
    {
      if d == c {
        NewlyDealt(q, r, broker, c, records, now);
      } else {
        assert Dealt(p.ledger.orders[d], q.ledger, d, records, now, Clean(q.tally.reasons));
        if rec.Some? {
          DealtStays(p.ledger.orders[d], q.ledger, r.ledger, c, d, records, now, Clean(q.tally.reasons), Clean(r.tally.reasons));
        } else {
          DealtStill(p.ledger.orders[d], q.ledger, d, records, now, Clean(q.tally.reasons));
        }
      }
    }
  }

  /** A pass over truthful records raises nothing, keeps the ledger behind the
      broker and sales covered, and leaves each row level with its record. */
  lemma {:induction false} RowsTruth(p: Progress, broker: map<string, BrokerOrder>, reached: set<string>,
                                     rows: seq<string>, records: seq<Record>, now: int)
    requires p.error.None? && PassReady(p.ledger, broker, reached) && Truthful(records, broker)
    requires NoRepeats(rows) && forall c :: c in rows ==> c in p.ledger.orders
    ensures PassDone(p, ReconcileRows(p, p.ledger.orders, rows, records, now), broker, reached, rows, records, now)
  {
    hide Mirrors, Dealt, SalesTakenIn, OneLiveSale, ReconcileRow, RowResult;
    if rows != [] {
      var front, c := rows[..|rows| - 1], rows[|rows| - 1];
      assert rows == front + [c];
      assert forall d :: d in front ==> d in rows;
      RowsTruth(p, broker, reached, front, records, now);
      var q := ReconcileRows(p, p.ledger.orders, front, records, now);
      assert q.ledger.orders[c] == p.ledger.orders[c] by {
        assert c !in front;
      }
      RowTruth(q, broker, c, records, now);
      var r := ReconcileRow(q, c, q.ledger.orders[c], records, now);
      OneMoreRow(p, q, r, broker, reached, front, c, records, now);
    }
  }
}
