/** What a reconcile pass achieves against a truthful broker. */
module ReconcileTheorems {
  import opened Wrappers
  import opened Text
  import opened LedgerTables
  import opened LedgerInvariant
  import opened LedgerRuns
  import opened BrokerRecords
  import opened Reconciliation
  import opened TruthfulBroker
  import opened ReconcileTruth
  import opened PassTruth

  /** The rows a pass works on, in some order. */
  ghost predicate RowsOf(l: Ledger, rows: seq<string>) {
    NoRepeats(rows) && forall c :: c in rows <==> Selected(l, c)
  }

  ghost function Pass(l: Ledger, rows: seq<string>, records: seq<Record>, now: int): Progress
    requires RowsOf(l, rows)
  {
    ReconcileRows(Progress(l, NOTHING_YET, None), l.orders, rows, records, now)
  }

  /** Refinement: after the pass every known order the snapshot shows, selected
      or not, has the broker's cumulative count and average, and the pass has
      raised nothing. */
  lemma PassRefinesBroker(l: Ledger, broker: map<string, BrokerOrder>, reached: set<string>, rows: seq<string>,
                          records: seq<Record>, now: int)
    requires PassReady(l, broker, reached) && RowsOf(l, rows) && Truthful(records, broker)
    ensures var q := Pass(l, rows, records, now);
            && q.error.None? && PassReady(q.ledger, broker, reached) && q.ledger.orders.Keys == l.orders.Keys
            && forall c :: c in q.ledger.orders && RecordOf(q.ledger.orders[c], records).Some? ==>
                 Level(q.ledger.orders[c], RecordOf(q.ledger.orders[c], records).value)
  {
    hide Mirrors, SalesTakenIn, OneLiveSale, CoveredSales;
    var p := Progress(l, NOTHING_YET, None);
    RowsTruth(p, broker, reached, rows, records, now);
    var m := Pass(l, rows, records, now).ledger;
    forall c | c in m.orders && RecordOf(m.orders[c], records).Some?
      ensures Level(m.orders[c], RecordOf(m.orders[c], records).value)
    {
      if c in rows {
        assert Dealt(l.orders[c], m, c, records, now, Clean(Pass(l, rows, records, now).tally.reasons));
      } else {
        FinishedIsLevel(l, broker, c, RecordOf(m.orders[c], records).value);
      }
    }
  }

  lemma FinishedIsLevel(l: Ledger, broker: map<string, BrokerOrder>, c: string, rec: Record)
    requires Mirrors(l, broker) && c in l.orders && l.orders[c].status.Terminal()
    requires l.orders[c].brokerId == Some(rec.number) && rec.number in broker && Reports(rec, broker[rec.number])
    ensures Level(l.orders[c], rec)
  {
    hide Mirrors;
    ReadyFacts(l, broker, c, rec);
    MeansEqual(l.orders[c].average, rec.average, rec.filled, broker[rec.number].notional);
  }

  /** A pass with nothing left to explain has taken every recorded fill into a
      position: a symbol's open quantity is what all its fills bought less what
      they sold. */
  lemma CleanPassTakesAll(l: Ledger, broker: map<string, BrokerOrder>, reached: set<string>, rows: seq<string>,
                          records: seq<Record>, now: int, symbol: string)
    requires PassReady(l, broker, reached) && RowsOf(l, rows) && Truthful(records, broker)
    requires Clean(Pass(l, rows, records, now).tally.reasons)
    ensures var m := Pass(l, rows, records, now).ledger;
            && (forall c :: c in m.orders ==> Unapplied(m.fills, m.applied, c) == [])
            && multiset(m.applied) == multiset(m.fills)
            && OpenQuantity(m.positions, symbol) == Total(m.fills, NetOf(symbol))
  {
    var m := Pass(l, rows, records, now).ledger;
    CleanPassLeavesNothing(l, broker, reached, rows, records, now);
    AllApplied(m);
    OpenQuantityIsNet(m, symbol);
    TotalOfMultiset(m.applied, m.fills, NetOf(symbol));
  }

  lemma CleanPassLeavesNothing(l: Ledger, broker: map<string, BrokerOrder>, reached: set<string>, rows: seq<string>,
                               records: seq<Record>, now: int)
    requires PassReady(l, broker, reached) && RowsOf(l, rows) && Truthful(records, broker)
    requires Clean(Pass(l, rows, records, now).tally.reasons)
    ensures var m := Pass(l, rows, records, now).ledger;
            LedgerOk(m) && forall c :: c in m.orders ==> Unapplied(m.fills, m.applied, c) == []
  {
    hide SalesTakenIn, OneLiveSale, CoveredSales, LedgerOk;
    RowsTruth(Progress(l, NOTHING_YET, None), broker, reached, rows, records, now);
    var m := Pass(l, rows, records, now).ledger;
    forall c | c in m.orders
      ensures Unapplied(m.fills, m.applied, c) == []
    {
      if c in rows {
        assert Dealt(l.orders[c], m, c, records, now, true);
      } else {
        UnselectedStays(l, rows, records, now, broker, reached, c);
      }
    }
  }

  /** An order the pass does not select comes out with nothing pending. */
  lemma UnselectedStays(l: Ledger, rows: seq<string>, records: seq<Record>, now: int,
                        broker: map<string, BrokerOrder>, reached: set<string>, c: string)
    requires PassReady(l, broker, reached) && RowsOf(l, rows) && Truthful(records, broker)
    requires c in l.orders && c !in rows
    ensures var m := Pass(l, rows, records, now).ledger; Unapplied(m.fills, m.applied, c) == []
  {
    QuietOrder(Progress(l, NOTHING_YET, None), broker, reached, rows, records, now, c);
  }

  lemma {:induction false} QuietOrder(p: Progress, broker: map<string, BrokerOrder>, reached: set<string>,
                                      rows: seq<string>, records: seq<Record>, now: int, c: string)
    requires p.error.None? && PassReady(p.ledger, broker, reached) && Truthful(records, broker)
    requires NoRepeats(rows) && forall d :: d in rows ==> d in p.ledger.orders
    requires c !in rows && Unapplied(p.ledger.fills, p.ledger.applied, c) == []
    ensures var m := ReconcileRows(p, p.ledger.orders, rows, records, now).ledger;
            Unapplied(m.fills, m.applied, c) == []
  {
    hide Mirrors, Dealt, SalesTakenIn, OneLiveSale, ReconcileRow, Unapplied;
    if rows != [] {
      var front, d := rows[..|rows| - 1], rows[|rows| - 1];
      assert rows == front + [d];
      assert forall e :: e in front ==> e in rows;
      QuietOrder(p, broker, reached, front, records, now, c);
      RowsTruth(p, broker, reached, front, records, now);
      var q := ReconcileRows(p, p.ledger.orders, front, records, now);
      assert q.ledger.orders[d] == p.ledger.orders[d];
      RowTruth(q, broker, d, records, now);
    }
  }

  lemma AllApplied(m: Ledger)
    requires LedgerOk(m) && forall c :: c in m.orders ==> Unapplied(m.fills, m.applied, c) == []
    ensures multiset(m.applied) == multiset(m.fills)
  {
    forall f: Fill
      ensures multiset(m.applied)[f] == multiset(m.fills)[f]
    {
      if f in m.fills {
        UniqueIdsCountOne(m.fills, f);
        TakenIn(m, f);
        UniqueIdsCountOne(m.applied, f);
      } else {
        assert f !in m.applied;
      }
    }
  }

  lemma TakenIn(m: Ledger, f: Fill)
    requires LedgerOk(m) && f in m.fills && Unapplied(m.fills, m.applied, f.client) == []
    ensures f in m.applied
  {
    if !HasFill(m.applied, f.id) {
      PendingFill(m, f.client, f);
      assert false;
    }
    var i :| 0 <= i < |m.applied| && m.applied[i].id == f.id;
    assert m.applied[i] in m.applied;
    SameIdSameFill(m.fills, m.applied[i], f);
  }

  // -------------------------------------------------------------- reruns

  lemma NothingNewToTake(l: Ledger, c: string, o: Order)
    requires c in l.orders && Unapplied(l.fills, l.applied, c) == []
    ensures After(l, MaterializeLocal(l, c, o)) == l
  {
    assert l.applied + [] == l.applied;
    assert TakeInAll(l.positions, l.orders[c], c, [], EntryPlan(Decision(None, None, None))) == Done(l.positions);
  }

  /** The ledger with the orders of some rows stamped anew. */
  ghost function Restamped(l: Ledger, rows: seq<string>, at: int): Ledger {
    l.(orders := map c | c in l.orders :: if c in rows then l.orders[c].(updatedAt := at) else l.orders[c])
  }

  /** An order level with its record and with nothing pending is written back as
      it is, but for the stamp. */
  lemma SettledRow(p: Progress, broker: map<string, BrokerOrder>, c: string, o: Order, records: seq<Record>, now: int, later: int)
    requires p.error.None? && Mirrors(p.ledger, broker) && c in p.ledger.orders && Truthful(records, broker)
    requires Dealt(o, p.ledger, c, records, now, true) && SameIdentity(o, p.ledger.orders[c])
    requires !p.ledger.orders[c].status.Terminal()
    ensures var q := ReconcileRow(p, c, p.ledger.orders[c], records, later);
            && q.ledger == PutOrder(p.ledger, c, p.ledger.orders[c].(updatedAt := later))
            && q.error.None? && q.tally.newFills == p.tally.newFills
  {
    hide Mirrors, Materialize, Unapplied;
    var l, local := p.ledger, p.ledger.orders[c];
    var rec := RecordOf(local, records).value;
    PlacedIn(l, broker, c);
    ReadyFacts(l, broker, c, rec);
    if rec.filled > 0 {
      MeanPositive(rec.average, rec.filled, broker[rec.number].notional);
    }
    var s := NextStatus(local, LocalStatus(rec.status).value);
    assert s == local.status;
    var stamped := local.(updatedAt := later);
    assert UpdatedStatus(local, s, Some(rec.number), Some(rec.filled), rec.average, later) == stamped;
    NothingNewToTake(PutOrder(l, c, stamped), c, local);
  }

  lemma RestampMirrors(l: Ledger, broker: map<string, BrokerOrder>, rows: seq<string>, c: string, at: int)
    requires Mirrors(Restamped(l, rows, at), broker) && c in l.orders && !l.orders[c].status.Terminal() && c !in rows
    ensures Restamped(l, rows + [c], at) == PutOrder(Restamped(l, rows, at), c, l.orders[c].(updatedAt := at))
    ensures Mirrors(Restamped(l, rows + [c], at), broker)
  {
    hide Mirrors;
    var m := Restamped(l, rows, at);
    PlacedIn(m, broker, c);
    StatusMirrors(m, broker, c, l.orders[c].(updatedAt := at));
  }

  lemma {:induction false} SettledRows(p: Progress, broker: map<string, BrokerOrder>, was: map<string, Order>, rows: seq<string>,
                                       records: seq<Record>, now: int, later: int)
    requires p.error.None? && Mirrors(p.ledger, broker) && Truthful(records, broker) && NoRepeats(rows)
    requires forall c :: c in rows ==>
               c in p.ledger.orders && c in was && Dealt(was[c], p.ledger, c, records, now, true)
               && SameIdentity(was[c], p.ledger.orders[c]) && !p.ledger.orders[c].status.Terminal()
    ensures var q := ReconcileRows(p, p.ledger.orders, rows, records, later);
            && q.ledger == Restamped(p.ledger, rows, later) && Mirrors(q.ledger, broker)
            && q.error.None? && q.tally.newFills == p.tally.newFills
  {
    hide Mirrors, Dealt, SameIdentity, ReconcileRow;
    if rows == [] {
      assert Restamped(p.ledger, [], later).orders == p.ledger.orders;
    } else {
      var front, c := rows[..|rows| - 1], rows[|rows| - 1];
      assert rows == front + [c];
      assert c in rows && c !in front && forall d :: d in front ==> d in rows;
      SettledRows(p, broker, was, front, records, now, later);
      var q := ReconcileRows(p, p.ledger.orders, front, records, later);
      StillDealt(was[c], p.ledger, front, c, records, now, later);
      SettledRow(q, broker, c, was[c], records, now, later);
      RestampMirrors(p.ledger, broker, front, c, later);
    }
  }

  lemma StillDealt(o: Order, l: Ledger, rows: seq<string>, c: string, records: seq<Record>, now: int, later: int)
    requires c in l.orders && c !in rows && Dealt(o, l, c, records, now, true)
    ensures Dealt(o, Restamped(l, rows, later), c, records, now, true)
  {
    hide Unapplied;
  }

  /** Running a clean pass again on the same snapshot, at whatever instant, takes
      up no fill and changes no fill, application or position row and no column
      of an order but the stamp of those it selects. It changes nothing at all
      exactly when it selects nothing or runs at the same instant. */
  lemma RerunChangesNothing(l: Ledger, broker: map<string, BrokerOrder>, reached: set<string>, rows: seq<string>,
                            records: seq<Record>, now: int, again: seq<string>, later: int)
    requires PassReady(l, broker, reached) && RowsOf(l, rows) && Truthful(records, broker)
    requires Clean(Pass(l, rows, records, now).tally.reasons) && RowsOf(Pass(l, rows, records, now).ledger, again)
    ensures var m, n := Pass(l, rows, records, now).ledger, Pass(Pass(l, rows, records, now).ledger, again, records, later).ledger;
            && n.fills == m.fills && n.applied == m.applied && n.positions == m.positions && n.decisions == m.decisions
            && n.orders.Keys == m.orders.Keys
            && (forall c :: c in m.orders ==> n.orders[c] == if c in again then m.orders[c].(updatedAt := later) else m.orders[c])
            && (forall c :: c in again ==> m.orders[c].updatedAt == now)
            && (n == m <==> again == [] || later == now)
    ensures Pass(Pass(l, rows, records, now).ledger, again, records, later).tally.newFills == 0
    ensures Pass(Pass(l, rows, records, now).ledger, again, records, later).error.None?
  {
    hide Mirrors, SalesTakenIn, OneLiveSale, CoveredSales, LedgerOk;
    RowsTruth(Progress(l, NOTHING_YET, None), broker, reached, rows, records, now);
    CleanPassLeavesNothing(l, broker, reached, rows, records, now);
    var m := Pass(l, rows, records, now).ledger;
    forall c | c in again
      ensures c in m.orders && c in l.orders && Dealt(l.orders[c], m, c, records, now, true)
      ensures SameIdentity(l.orders[c], m.orders[c]) && !m.orders[c].status.Terminal()
    {
      assert Selected(m, c);
      assert c in l.orders && !l.orders[c].status.Terminal();
      assert c in rows;
    }
    SettledRows(Progress(m, NOTHING_YET, None), broker, l.orders, again, records, now, later);
    StampsMatter(l.orders, m, again, records, now, later);
  }

  lemma StampsMatter(was: map<string, Order>, m: Ledger, again: seq<string>, records: seq<Record>, now: int, later: int)
    requires forall c :: c in again ==> c in m.orders && c in was && Dealt(was[c], m, c, records, now, true)
    ensures forall c :: c in again ==> m.orders[c].updatedAt == now
    ensures Restamped(m, again, later) == m <==> again == [] || later == now
  {
    hide Unapplied;
    if again != [] {
      assert again[0] in again;
      assert Restamped(m, again, later).orders[again[0]].updatedAt == later;
    }
    if again == [] || later == now {
      assert Restamped(m, again, later).orders == m.orders;
    }
  }

  // ------------------------------------------------------- a rerun that shows

  function WaitingOrder(at: int): Order {
    Order(Some("s"), "005930", Buy, 1, 1.0, Acknowledged, Some("1"), 0, None, 0, at, Some(0), None, None)
  }

  function WaitingLedger(at: int): Ledger {
    Ledger(map["a" := WaitingOrder(at)], [], [], [], map["s" := Decision(None, None, None)])
  }

  function WaitingBroker(): map<string, BrokerOrder> {
    map["1" := BrokerOrder("a", "005930", Buy, 1, 0, 0.0, None)]
  }

  function WaitingRecord(): Record {
    Record("1", "005930", Some(Buy), 1, 0, 1, None, None, Unfilled, None)
  }

  lemma WaitingMirrors(at: int)
    ensures Mirrors(WaitingLedger(at), WaitingBroker())
  {
    hide LedgerOk, TablesOk;
    var l := WaitingLedger(at);
    assert "1"[0] == '1' && "a"[0] == 'a';
    EmptyLedgerOk(l.decisions);
    NewOrderKeeps(Ledger(map[], [], [], [], l.decisions), "a", WaitingOrder(at));
    assert PutOrder(Ledger(map[], [], [], [], l.decisions), "a", WaitingOrder(at)) == l;
    assert Placed(l, "a", WaitingBroker());
    NoFillsMirrors(l, WaitingBroker());
  }

  lemma NoFillsMirrors(l: Ledger, broker: map<string, BrokerOrder>)
    requires LedgerOk(l) && l.fills == [] && forall n :: n in broker ==> !Blank(n) && broker[n].Sound()
    requires forall c :: c in l.orders ==> !Blank(c) && StockCode(l.orders[c].symbol) && Placed(l, c, broker)
    ensures Mirrors(l, broker)
  {
    hide LedgerOk, Blank, StockCode, Placed;
  }

  lemma WaitingReady(at: int)
    ensures PassReady(WaitingLedger(at), WaitingBroker(), {"a"}) && RowsOf(WaitingLedger(at), ["a"])
    ensures Truthful([WaitingRecord()], WaitingBroker())
  {
    hide Mirrors;
    WaitingMirrors(at);
    assert SaleCovered(WaitingLedger(at), "a");
    assert Selected(WaitingLedger(at), "a");
  }

  lemma WaitingPass(at: int, now: int)
    requires RowsOf(WaitingLedger(at), ["a"])
    ensures var q := Pass(WaitingLedger(at), ["a"], [WaitingRecord()], now);
            q.ledger == WaitingLedger(now) && q.tally.reasons == [] && q.error.None?
  {
    var l, records := WaitingLedger(at), [WaitingRecord()];
    var p := Progress(l, NOTHING_YET, None);
    assert "a"[0] == 'a' && "1"[0] == '1';
    assert FindRecord(records, "1") == Some(WaitingRecord());
    assert ["a"][..0] == [];
    assert ReconcileRows(p, l.orders, [], records, now) == p;
    assert ReconcileRows(p, l.orders, ["a"], records, now) == ReconcileRow(p, "a", l.orders["a"], records, now);
    NothingNewToTake(WaitingLedger(now), "a", l.orders["a"]);
    assert l.applied + [] == l.applied;
    assert PutOrder(l, "a", WaitingOrder(now)) == WaitingLedger(now);
  }

  lemma WaitingStamp(at: int)
    ensures "a" in WaitingLedger(at).orders && WaitingLedger(at).orders["a"].updatedAt == at
  {
  }

  /** A clean pass over an order that waits at the broker, run again a second
      later: the stamp of the order moves. */
  lemma RerunMovesTheStamp()
    ensures PassReady(WaitingLedger(0), WaitingBroker(), {"a"}) && RowsOf(WaitingLedger(0), ["a"]) && RowsOf(WaitingLedger(1), ["a"])
    ensures Truthful([WaitingRecord()], WaitingBroker())
    ensures var q := Pass(WaitingLedger(0), ["a"], [WaitingRecord()], 1); q.ledger == WaitingLedger(1) && q.tally.reasons == []
    ensures Pass(WaitingLedger(1), ["a"], [WaitingRecord()], 2).ledger == WaitingLedger(2) != WaitingLedger(1)
  {
    hide PassReady, RowsOf, Truthful, Pass, WaitingLedger, WaitingBroker, WaitingRecord;
    WaitingReady(0);
    WaitingPass(0, 1);
    WaitingReady(1);
    WaitingPass(1, 2);
    WaitingStamp(1);
    WaitingStamp(2);
  }
}
