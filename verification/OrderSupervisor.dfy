/** `one_iteration` of `ops/order_supervisor.py` on one broker snapshot: the
    reconcile pass, the operator's cancel-all and the stale-order pass in turn.
    The whole is the supervisor step of the service. */
module OrderSupervisor {
  import opened Wrappers
  import opened Text
  import opened LedgerTables
  import opened BrokerRecords
  import opened Database
  import opened Reconciliation
  import opened OrderManagement
  import opened TruthfulBroker
  import opened PassTruth
  import opened ReconcileTheorems
  import opened ServiceRun

  /** One row of the operator's cancel-all. */
  method CancelBuyOrder(db: Database, client: string, local: Order, records: seq<Record>, acknowledged: set<string>,
                        now: int, before: Desk)
    returns (after: Desk)
    requires before == DeskOf(db, before.sent, before.waiting, before.confirmed, before.unknown, None)
    modifies db`orders, db`pending, db`review, db`blockEntries
    ensures after == CancelBuyRow(before, client, local, records, acknowledged, now)
    ensures after == DeskOf(db, after.sent, after.waiting, after.confirmed, after.unknown, after.error)
  {
    var sent, waiting, confirmed, unknown, error := before.sent, before.waiting, before.confirmed, before.unknown, None;
    var rec := RecordOf(local, records);
    if rec.None? || rec.value.side != Some(Buy) {
      unknown, error := MarkUnknownAndBlock(db, client, now, unknown);
    } else if OpenAtBroker(rec.value) {
      if !Cancellable(rec.value) {
        unknown, error := MarkUnknownAndBlock(db, client, now, unknown);
      } else {
        var r := db.UpdateBrokerOrderStatus(client, CancelPending, Some(rec.value.number), Some(rec.value.filled),
                                            rec.value.average, now);
        if r.Raised? {
          error := Some(r.error);
        } else {
          sent := sent + [client];
          if rec.value.number in acknowledged {
            db.pending := db.pending[client := Requested];
            waiting := waiting + 1;
          } else {
            unknown, error := MarkUnknownAndBlock(db, client, now, unknown);
          }
        }
      }
    }
    after := DeskOf(db, sent, waiting, confirmed, unknown, error);
  }

  /** The request is consumed before the first broker call, so that a restart
      cannot replay it. */
  method CancelRequestedBuys(db: Database, records: seq<Record>, acknowledged: set<string>, now: int)
    returns (after: Desk, ghost rows: seq<string>)
    modifies db`orders, db`pending, db`review, db`blockEntries, db`cancelRequested
    ensures !db.cancelRequested && RowList(old(db.orders), ActiveBuyIds(old(db.State())), rows)
    ensures var start := Desk(old(db.State()), old(db.pending), [], 0, 0, 0, None);
            after == if old(db.cancelRequested) then CancelBuyRows(start, old(db.orders), rows, records, acknowledged, now) else start
    ensures after == DeskOf(db, after.sent, after.waiting, after.confirmed, after.unknown, after.error)
  {
    ghost var start := Desk(db.State(), db.pending, [], 0, 0, 0, None);
    var selected := db.orders;
    var list := OrderedRows(selected, ActiveBuyIds(db.State()));
    rows := list;
    after := Desk(db.State(), db.pending, [], 0, 0, 0, None);
    if !db.cancelRequested {
      return;
    }
    db.cancelRequested := false;
    var i := 0;
    while i < |list| && after.error.None?
      invariant 0 <= i <= |list|
      invariant after == CancelBuyRows(start, selected, list[..i], records, acknowledged, now)
      invariant after == DeskOf(db, after.sent, after.waiting, after.confirmed, after.unknown, after.error)
      invariant !db.cancelRequested
    {
      assert list[..i + 1][..i] == list[..i];
      after := CancelBuyOrder(db, list[i], selected[list[i]], records, acknowledged, now, after);
      i := i + 1;
    }
    if after.error.Some? {
      StoppedCancelsStay(start, selected, list, records, acknowledged, now, i);
    }
    assert list[..|list|] == list;
  }

  lemma {:induction false} StoppedCancelsStay(d: Desk, orders: map<string, Order>, rows: seq<string>, records: seq<Record>,
                                              acknowledged: set<string>, now: int, n: nat)
    requires forall c :: c in rows ==> c in orders
    requires n <= |rows| && CancelBuyRows(d, orders, rows[..n], records, acknowledged, now).error.Some?
    ensures CancelBuyRows(d, orders, rows, records, acknowledged, now)
            == CancelBuyRows(d, orders, rows[..n], records, acknowledged, now)
    decreases |rows|
  {
    if n == |rows| {
      assert rows[..n] == rows;
    } else {
      var front := rows[..|rows| - 1];
      assert front[..n] == rows[..n];
      StoppedCancelsStay(d, orders, front, records, acknowledged, now, n);
    }
  }

  // --------------------------------------------------------- the whole step

  /** Two desks that differ in what they have counted so far only. */
  ghost predicate SameWork(d: Desk, e: Desk, ahead: int) {
    && d.ledger == e.ledger && d.pending == e.pending && d.error == e.error && d.waiting == e.waiting && e.unknown == d.unknown + ahead
  }

  lemma RowSameWork(d: Desk, e: Desk, ahead: int, c: string, local: Order, records: seq<Record>, acknowledged: set<string>,
                    m: Market, policy: Policy)
    requires SameWork(d, e, ahead)
    ensures SameWork(ManageRow(d, c, local, records, acknowledged, m, policy), ManageRow(e, c, local, records, acknowledged, m, policy), ahead)
  {
    hide FindRecord, Blank;
  }

  lemma {:induction false} RowsSameWork(d: Desk, e: Desk, ahead: int, orders: map<string, Order>, rows: seq<string>, records: seq<Record>,
                                        acknowledged: set<string>, m: Market, policy: Policy)
    requires SameWork(d, e, ahead) && forall c :: c in rows ==> c in orders
    ensures SameWork(ManageRows(d, orders, rows, records, acknowledged, m, policy), ManageRows(e, orders, rows, records, acknowledged, m, policy), ahead)
  {
    hide ManageRow;
    if rows != [] {
      var front, c := rows[..|rows| - 1], rows[|rows| - 1];
      RowsSameWork(d, e, ahead, orders, front, records, acknowledged, m, policy);
      RowSameWork(ManageRows(d, orders, front, records, acknowledged, m, policy), ManageRows(e, orders, front, records, acknowledged, m, policy),
                  ahead, c, orders[c], records, acknowledged, m, policy);
    }
  }

  lemma RowListIsList(orders: map<string, Order>, ids: set<string>, rows: seq<string>)
    requires RowList(orders, ids, rows)
    ensures ListOf(rows, ids)
  {
  }

  lemma {:induction false} AnyList(ids: set<string>) returns (rows: seq<string>)
    ensures ListOf(rows, ids)
  {
    if ids == {} {
      rows := [];
    } else {
      var c :| c in ids;
      rows := AnyList(ids - {c});
      rows := rows + [c];
    }
  }

  /** The database holds what the world says of it. */
  ghost predicate Shows(db: Database, w: World)
    reads db
  {
    && db.State() == w.ledger && db.pending == w.pending
    && db.review == w.review && db.blockEntries == w.blockEntries && db.cancelRequested == w.cancelRequested
  }

  /** The stale-order pass, and the flags it and what came before it call for. */
  method ManageAndFlag(db: Database, records: seq<Record>, acknowledged: set<string>, m: Market, policy: Policy, unexplained: bool)
    returns (ghost managed: Desk, ghost open: seq<string>)
    modifies db
    ensures RowList(old(db.orders), OpenIds(old(db.State())), open)
    ensures managed == ManageRows(Desk(old(db.State()), old(db.pending), [], 0, 0, 0, None), old(db.orders), open,
                                  records, acknowledged, m, policy)
    ensures db.State() == managed.ledger && db.pending == managed.pending && db.cancelRequested == old(db.cancelRequested)
    ensures db.review == (unexplained || managed.unknown > 0 || managed.error.Some?)
    ensures db.blockEntries == (db.review || managed.waiting > 0)
  {
    hide ManageRows, RowList;
    var after, rows := ManageStaleOrders(db, Some(records), acknowledged, m, policy);
    var review := unexplained || after.unknown > 0 || after.error.Some?;
    db.review := review;
    db.blockEntries := review || after.waiting > 0;
    managed, open := after, rows;
  }

  /** The cancel-all and the stale-order pass, and the flags they and the
      reconcile pass call for. */
  method CancelAndManage(db: Database, records: seq<Record>, account: Option<map<string, int>>, acknowledged: set<string>,
                         m: Market, policy: Policy, unexplained: bool, ghost w: World, ghost rows: seq<string>)
    returns (ghost s: Snapshot)
    requires RowsOf(w.ledger, rows) && Truthful(records, w.broker)
    requires var q := Pass(w.ledger, rows, records, m.now);
             && q.error.None? && unexplained == HasReasons(w.ledger, q, rows, records, account)
             && db.State() == q.ledger && db.pending == w.pending && db.cancelRequested == w.cancelRequested
    modifies db
    ensures s.records == records && s.rows == rows && s.acknowledged == acknowledged && s.market == m && s.policy == policy
    ensures s.account == account
    ensures Sensible(w, s) && Shows(db, AfterSupervise(w, s))
  {
    hide HasReasons, OpenIds, ActiveBuyIds, ReconcileRows, ManageRows, CancelBuyRows, OpenQuantity, Truthful, Sensible, AfterSupervise, RowList, ListOf, RowsOf;
    ghost var q := Pass(w.ledger, rows, records, m.now);
    var cancels, buys := CancelRequestedBuys(db, records, acknowledged, m.now);
    RowListIsList(q.ledger.orders, ActiveBuyIds(q.ledger), buys);
    if cancels.error.Some? {
      db.review, db.blockEntries := true, true;
      s := NoMoreAfterCancels(w, records, rows, buys, acknowledged, m, policy, account);
      return;
    }
    ghost var managed, open := ManageAndFlag(db, records, acknowledged, m, policy, unexplained || cancels.unknown > 0);
    RowListIsList(cancels.ledger.orders, OpenIds(cancels.ledger), open);
    s := Snapshot(records, rows, buys, open, acknowledged, m, policy, account);
    AllThree(w, s, cancels, managed);
  }

  /** Given a snapshot that is true of the broker, the iteration is a supervisor
      step; given none, it raises the flags and touches no order. */
  method OneIteration(db: Database, records: Option<seq<Record>>, account: Option<map<string, int>>, acknowledged: set<string>,
                      m: Market, policy: Policy, ghost w: World)
    returns (ghost s: Snapshot)
    requires Shows(db, w) && (records.Some? ==> Truthful(records.value, w.broker))
    modifies db
    ensures records.None? ==> Shows(db, w.(review := true, blockEntries := true, cancelRequested := false))
    ensures records.Some? ==>
              && s.records == records.value && s.account == account && s.acknowledged == acknowledged && s.market == m && s.policy == policy
              && Sensible(w, s) && Shows(db, AfterSupervise(w, s))
  {
    hide ReconcileRows, ManageRows, CancelBuyRows, OpenQuantity, Truthful, Sensible, AfterSupervise, RowList, ListOf, RowsOf;
    s := Snapshot([], [], [], [], acknowledged, m, policy, account);
    var r, rows, symbols := ReconcileBrokerState(db, records, account, m.now);
    if records.None? {
      db.cancelRequested := false;
      var none, open := ManageStaleOrders(db, None, acknowledged, m, policy);
      return;
    }
    RowsAreSelected(w.ledger, rows);
    ghost var q := Pass(w.ledger, rows, records.value, m.now);
    if r.Raised? {
      db.review, db.blockEntries := true, true;
      s := NoMore(w, records.value, rows, acknowledged, m, policy, account);
      return;
    }
    s := CancelAndManage(db, records.value, account, acknowledged, m, policy, r.value.reasons != [], w, rows);
  }

  lemma RowsAreSelected(l: Ledger, rows: seq<string>)
    requires RowList(l.orders, SelectedIds(l), rows)
    ensures RowsOf(l, rows)
  {
    hide Unapplied;
  }

  /** All three parts ran. */
  lemma AllThree(w: World, s: Snapshot, cancels: Desk, managed: Desk)
    requires RowsOf(w.ledger, s.rows) && Truthful(s.records, w.broker)
    requires var q := AfterReconcile(w, s);
             q.error.None? && ListOf(s.buys, ActiveBuyIds(q.ledger)) && cancels == AfterCancels(w, s, q.ledger)
    requires cancels.error.None? && ListOf(s.open, OpenIds(cancels.ledger))
    requires managed == ManageRows(Desk(cancels.ledger, cancels.pending, [], 0, 0, 0, None), cancels.ledger.orders, s.open,
                                   s.records, s.acknowledged, s.market, s.policy)
    ensures Sensible(w, s)
    ensures var review := HasReasons(w.ledger, AfterReconcile(w, s), s.rows, s.records, s.account) || managed.unknown > 0 || cancels.unknown > 0
                          || managed.error.Some?;
            AfterSupervise(w, s) == w.(ledger := managed.ledger, pending := managed.pending, cancelRequested := false,
                                       review := review, blockEntries := review || managed.waiting > 0)
  {
    hide ReconcileRows, ManageRows, CancelBuyRows, Truthful, RowsOf;
    RowsSameWork(Desk(cancels.ledger, cancels.pending, [], 0, 0, 0, None), cancels.(waiting := 0), cancels.unknown,
                 cancels.ledger.orders, s.open, s.records, s.acknowledged, s.market, s.policy);
  }

  lemma NoMore(w: World, records: seq<Record>, rows: seq<string>, acknowledged: set<string>, m: Market, policy: Policy,
               account: Option<map<string, int>>) returns (s: Snapshot)
    requires RowsOf(w.ledger, rows) && Truthful(records, w.broker)
    ensures s.records == records && s.rows == rows && s.acknowledged == acknowledged && s.market == m && s.policy == policy && s.account == account
    ensures Sensible(w, s)
    ensures var q := Pass(w.ledger, rows, records, m.now);
            q.error.Some? ==> AfterSupervise(w, s) == w.(ledger := q.ledger, review := true, blockEntries := true)
  {
    hide ReconcileRows, ManageRows, CancelBuyRows, Truthful;
    s := Snapshot(records, rows, [], [], acknowledged, m, policy, account);
    var buys := AnyList(ActiveBuyIds(AfterReconcile(w, s).ledger));
    s := NoMoreAfterCancels(w, records, rows, buys, acknowledged, m, policy, account);
  }

  lemma NoMoreAfterCancels(w: World, records: seq<Record>, rows: seq<string>, buys: seq<string>, acknowledged: set<string>, m: Market, policy: Policy,
                           account: Option<map<string, int>>)
    returns (s: Snapshot)
    requires RowsOf(w.ledger, rows) && Truthful(records, w.broker)
    requires ListOf(buys, ActiveBuyIds(Pass(w.ledger, rows, records, m.now).ledger))
    ensures s.records == records && s.rows == rows && s.buys == buys && s.acknowledged == acknowledged && s.market == m && s.policy == policy
    ensures s.account == account && Sensible(w, s)
    ensures var q := AfterReconcile(w, s);
            q.error.Some? ==> AfterSupervise(w, s) == w.(ledger := q.ledger, review := true, blockEntries := true)
    ensures var q := AfterReconcile(w, s);
            var d := AfterCancels(w, s, q.ledger);
            q.error.None? && d.error.Some? ==>
              AfterSupervise(w, s) == w.(ledger := d.ledger, pending := d.pending, cancelRequested := false, review := true, blockEntries := true)
  {
    hide ReconcileRows, ManageRows, CancelBuyRows, Truthful;
    s := Snapshot(records, rows, buys, [], acknowledged, m, policy, account);
    var open := AnyList(OpenIds(AfterCancels(w, s, AfterReconcile(w, s).ledger).ledger));
    s := s.(open := open);
  }
}
