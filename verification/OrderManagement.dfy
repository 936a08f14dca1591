/** `pipeline/order_management.py` and the operator's cancel-all of
    `ops/order_supervisor.py`: who gets a cancel request, and when again. */
module OrderManagement {
  import opened Wrappers
  import opened Text
  import opened LedgerTables
  import opened BrokerRecords
  import opened Database
  import opened Reconciliation

  /** The instant of a pass and what the exchange calendar says about it. */
  datatype Market = Market(now: int, open: bool, entryWindow: bool)

  datatype Policy = Policy(buyTtl: nat, sellTtl: nat)

  function Age(o: Order, now: int): nat {
    var started := if o.submittedAt.Some? then o.submittedAt.value else o.updatedAt;
    if now < started then 0 else now - started
  }

  predicate Stale(o: Order, m: Market, policy: Policy) {
    && m.open
    && (Age(o, m.now) >= (if o.side == Buy then policy.buyTtl else policy.sellTtl) || (o.side == Buy && !m.entryWindow))
  }

  /** A working order goes stale no earlier than its side's time to live, a BUY
      also when the entry window closes; never while the market is closed; and it
      stays stale from then on while neither clock nor window turns back. */
  lemma StaleOnlyAfterItsTime(o: Order, m: Market, later: Market, policy: Policy)
    requires m.now <= later.now && later.open && (!m.entryWindow ==> !later.entryWindow)
    ensures Stale(o, m, policy) ==> Stale(o, later, policy)
    ensures !m.open ==> !Stale(o, m, policy)
    ensures Stale(o, m, policy) && o.side == Sell ==> m.now - o.submittedAt.GetOr(o.updatedAt) >= policy.sellTtl || policy.sellTtl == 0
    ensures Stale(o, m, policy) && o.side == Buy && m.entryWindow ==>
              m.now - o.submittedAt.GetOr(o.updatedAt) >= policy.buyTtl || policy.buyTtl == 0
    ensures m.open && m.now - o.submittedAt.GetOr(o.updatedAt) >= (if o.side == Buy then policy.buyTtl else policy.sellTtl) ==>
              Stale(o, m, policy)
    ensures m.open && o.side == Buy && !m.entryWindow ==> Stale(o, m, policy)
  {
  }

  /** Where a pass stands. `sent` lists the orders a cancel request was sent for,
      acknowledged or not; `error` is an exception that escapes the pass. */
  datatype Desk = Desk(
    ledger: Ledger, pending: map<string, Marker>, sent: seq<string>,
    waiting: nat, confirmed: nat, unknown: nat, error: Option<Error>)

  predicate OpenAtBroker(rec: Record) {
    rec.status == Unfilled || rec.status == PartlyFilled
  }

  predicate Cancellable(rec: Record) {
    rec.number != "" && rec.branch.Some? && rec.branch.value != "" && rec.remaining > 0
  }

  function SetAside(d: Desk, client: string, now: int): Desk {
    var r := MarkUnknown(d.ledger, client, Some("order_management"), now);
    if r.Raised? then d.(error := Some(r.error)) else d.(ledger := r.value.0, unknown := d.unknown + 1)
  }

  function CopyStatus(l: Ledger, client: string, s: Status, rec: Record, now: int): Outcome<(Ledger, bool)> {
    UpdateStatus(l, client, s, Some(rec.number), Some(rec.filled), rec.average, now)
  }

  /** An order with a pending-cancel marker: wait, or see the cancel through. */
  function FollowMarker(d: Desk, client: string, marker: Marker, rec: Option<Record>, now: int): Desk {
    if marker == Confirmed || rec.None? then d.(waiting := d.waiting + 1)
    else
      var s := LocalStatus(rec.value.status);
      var done := s.Some? && s.value.Terminal();
      match CopyStatus(d.ledger, client, if done then s.value else CancelPending, rec.value, now)
      case Raised(e) => d.(error := Some(e))
      case Done((l, _)) =>
        if done then d.(ledger := l, pending := d.pending[client := Confirmed], confirmed := d.confirmed + 1)
        else d.(ledger := l, waiting := d.waiting + 1)
  }

  /** Write CANCEL_PENDING, then ask the broker. A refused write or an unanswered
      request leaves the order UNKNOWN; only an answer leaves a marker. */
  function RequestCancel(d: Desk, client: string, rec: Record, acknowledged: bool, now: int): Desk {
    match CopyStatus(d.ledger, client, CancelPending, rec, now)
    case Raised(_) => SetAside(d, client, now)
    case Done((l, _)) =>
      var asked := d.(ledger := l, sent := d.sent + [client]);
      if acknowledged then asked.(pending := d.pending[client := Requested], waiting := d.waiting + 1)
      else SetAside(asked, client, now)
  }

  function ManageRow(d: Desk, client: string, local: Order, records: seq<Record>, acknowledged: set<string>,
                     m: Market, policy: Policy): Desk
  {
    var rec := RecordOf(local, records);
    if client in d.pending then FollowMarker(d, client, d.pending[client], rec, m.now)
    else if local.status == CancelPending then d.(waiting := d.waiting + 1)
    else if local.status != Acknowledged && local.status != PartiallyFilled then d
    else if local.brokerId.None? || Blank(local.brokerId.value) then SetAside(d, client, m.now)
    else if rec.None? || !OpenAtBroker(rec.value) then d
    else if !SameOrder(local, rec.value) then SetAside(d, client, m.now)
    else if !Stale(local, m, policy) then d
    else if !Cancellable(rec.value) then SetAside(d, client, m.now)
    else RequestCancel(d, client, rec.value, rec.value.number in acknowledged, m.now)
  }

  function ManageRows(d: Desk, orders: map<string, Order>, rows: seq<string>, records: seq<Record>,
                      acknowledged: set<string>, m: Market, policy: Policy): Desk
    requires forall c :: c in rows ==> c in orders
  {
    if rows == [] then d
    else
      var before := ManageRows(d, orders, rows[..|rows| - 1], records, acknowledged, m, policy);
      if before.error.Some? then before
      else
        var c := rows[|rows| - 1];
        ManageRow(before, c, orders[c], records, acknowledged, m, policy)
  }

  function OpenIds(l: Ledger): set<string> {
    set c | c in l.orders && !l.orders[c].status.Terminal()
  }

  // ------------------------------------------- the operator's cancel-all

  /** Like a stale BUY, except that a refused status write escapes the pass. */
  function CancelBuyRow(d: Desk, client: string, local: Order, records: seq<Record>, acknowledged: set<string>, now: int): Desk {
    var rec := RecordOf(local, records);
    if rec.None? || rec.value.side != Some(Buy) then SetAside(d, client, now)
    else if !OpenAtBroker(rec.value) then d
    else if !Cancellable(rec.value) then SetAside(d, client, now)
    else
      match CopyStatus(d.ledger, client, CancelPending, rec.value, now)
      case Raised(e) => d.(error := Some(e))
      case Done(_) => RequestCancel(d, client, rec.value, rec.value.number in acknowledged, now)
  }

  function CancelBuyRows(d: Desk, orders: map<string, Order>, rows: seq<string>, records: seq<Record>,
                         acknowledged: set<string>, now: int): Desk
    requires forall c :: c in rows ==> c in orders
  {
    if rows == [] then d
    else
      var before := CancelBuyRows(d, orders, rows[..|rows| - 1], records, acknowledged, now);
      if before.error.Some? then before
      else
        var c := rows[|rows| - 1];
        CancelBuyRow(before, c, orders[c], records, acknowledged, now)
  }

  function ActiveBuyIds(l: Ledger): set<string> {
    set c | c in l.orders && l.orders[c].side == Buy
            && (l.orders[c].status == Acknowledged || l.orders[c].status == PartiallyFilled)
  }

  // ---------------------------------------------------------------- methods

  function DeskOf(db: Database, sent: seq<string>, waiting: nat, confirmed: nat, unknown: nat, error: Option<Error>): Desk
    reads db
  {
    Desk(db.State(), db.pending, sent, waiting, confirmed, unknown, error)
  }

  /** Marks the order UNKNOWN and blocks new entries for operator review. */
  method MarkUnknownAndBlock(db: Database, client: string, now: int, count: nat) returns (unknown: nat, error: Option<Error>)
    modifies db`orders, db`review, db`blockEntries
    ensures forall sent, waiting, confirmed ::
              DeskOf(db, sent, waiting, confirmed, unknown, error)
              == SetAside(Desk(old(db.State()), old(db.pending), sent, waiting, confirmed, count, None), client, now)
    ensures error.None? ==> db.review && db.blockEntries
    ensures error.Some? ==> db.review == old(db.review) && db.blockEntries == old(db.blockEntries)
  {
    var r := db.MarkOrderUnknown(client, Some("order_management"), now);
    if r.Raised? {
      return count, Some(r.error);
    }
    db.review, db.blockEntries := true, true;
    return count + 1, None;
  }

  /** One row of the stale-order loop. */
  method ManageOrder(db: Database, client: string, local: Order, records: seq<Record>, acknowledged: set<string>,
                     m: Market, policy: Policy, before: Desk)
    returns (after: Desk)
    requires before == DeskOf(db, before.sent, before.waiting, before.confirmed, before.unknown, None)
    modifies db`orders, db`pending, db`review, db`blockEntries
    ensures after == ManageRow(before, client, local, records, acknowledged, m, policy)
    ensures after == DeskOf(db, after.sent, after.waiting, after.confirmed, after.unknown, after.error)
  {
    var sent, waiting, confirmed, unknown, error := before.sent, before.waiting, before.confirmed, before.unknown, None;
    var rec := RecordOf(local, records);
    if client in db.pending {
      if db.pending[client] == Confirmed || rec.None? {
        waiting := waiting + 1;
      } else {
        var s := LocalStatus(rec.value.status);
        var done := s.Some? && s.value.Terminal();
        var r := db.UpdateBrokerOrderStatus(client, if done then s.value else CancelPending, Some(rec.value.number),
                                            Some(rec.value.filled), rec.value.average, m.now);
        if r.Raised? {
          error := Some(r.error);
        } else if done {
          db.pending := db.pending[client := Confirmed];
          confirmed := confirmed + 1;
        } else {
          waiting := waiting + 1;
        }
      }
    } else if local.status == CancelPending {
      waiting := waiting + 1;
    } else if local.status == Acknowledged || local.status == PartiallyFilled {
      if local.brokerId.None? || Blank(local.brokerId.value) {
        unknown, error := MarkUnknownAndBlock(db, client, m.now, unknown);
      } else if rec.Some? && OpenAtBroker(rec.value) {
        if !SameOrder(local, rec.value) {
          unknown, error := MarkUnknownAndBlock(db, client, m.now, unknown);
        } else if Stale(local, m, policy) {
          if !Cancellable(rec.value) {
            unknown, error := MarkUnknownAndBlock(db, client, m.now, unknown);
          } else {
            sent, waiting, unknown, error :=
              AskToCancel(db, client, rec.value, rec.value.number in acknowledged, m.now, sent, waiting, confirmed, unknown);
          }
        }
      }
    }
    after := DeskOf(db, sent, waiting, confirmed, unknown, error);
  }

  method AskToCancel(db: Database, client: string, rec: Record, acknowledged: bool, now: int,
                     sent0: seq<string>, waiting0: nat, ghost confirmed: nat, unknown0: nat)
    returns (sent: seq<string>, waiting: nat, unknown: nat, error: Option<Error>)
    modifies db`orders, db`pending, db`review, db`blockEntries
    ensures DeskOf(db, sent, waiting, confirmed, unknown, error)
            == RequestCancel(Desk(old(db.State()), old(db.pending), sent0, waiting0, confirmed, unknown0, None),
                             client, rec, acknowledged, now)
  {
    sent, waiting, unknown, error := sent0, waiting0, unknown0, None;
    var r := db.UpdateBrokerOrderStatus(client, CancelPending, Some(rec.number), Some(rec.filled), rec.average, now);
    if r.Raised? {
      unknown, error := MarkUnknownAndBlock(db, client, now, unknown);
      return;
    }
    sent := sent + [client];
    if acknowledged {
      db.pending := db.pending[client := Requested];
      waiting := waiting + 1;
    } else {
      unknown, error := MarkUnknownAndBlock(db, client, now, unknown);
    }
  }

  /** A failed order-status query blocks new entries and touches no order. */
  method ManageStaleOrders(db: Database, records: Option<seq<Record>>, acknowledged: set<string>, m: Market, policy: Policy)
    returns (after: Desk, ghost rows: seq<string>)
    modifies db`orders, db`pending, db`review, db`blockEntries
    ensures records.None? ==> after == Desk(old(db.State()), old(db.pending), [], 0, 0, 0, None) && db.review && db.blockEntries
    ensures records.Some? ==>
              && RowList(old(db.orders), OpenIds(old(db.State())), rows)
              && after == ManageRows(Desk(old(db.State()), old(db.pending), [], 0, 0, 0, None), old(db.orders), rows,
                                     records.value, acknowledged, m, policy)
    ensures after == DeskOf(db, after.sent, after.waiting, after.confirmed, after.unknown, after.error)
  {
    ghost var start := Desk(db.State(), db.pending, [], 0, 0, 0, None);
    after := Desk(db.State(), db.pending, [], 0, 0, 0, None);
    rows := [];
    if records.None? {
      db.review, db.blockEntries := true, true;
      return;
    }
    var selected := db.orders;
    var list := OrderedRows(selected, OpenIds(db.State()));
    rows := list;
    var i := 0;
    while i < |list| && after.error.None?
      invariant 0 <= i <= |list|
      invariant after == ManageRows(start, selected, list[..i], records.value, acknowledged, m, policy)
      invariant after == DeskOf(db, after.sent, after.waiting, after.confirmed, after.unknown, after.error)
    {
      assert list[..i + 1][..i] == list[..i];
      after := ManageOrder(db, list[i], selected[list[i]], records.value, acknowledged, m, policy, after);
      i := i + 1;
    }
    if after.error.Some? {
      StoppedManageStays(start, selected, list, records.value, acknowledged, m, policy, i);
    }
    assert list[..|list|] == list;
  }

  lemma {:induction false} StoppedManageStays(d: Desk, orders: map<string, Order>, rows: seq<string>, records: seq<Record>,
                                              acknowledged: set<string>, m: Market, policy: Policy, n: nat)
    requires forall c :: c in rows ==> c in orders
    requires n <= |rows| && ManageRows(d, orders, rows[..n], records, acknowledged, m, policy).error.Some?
    ensures ManageRows(d, orders, rows, records, acknowledged, m, policy)
            == ManageRows(d, orders, rows[..n], records, acknowledged, m, policy)
    decreases |rows|
  {
    if n == |rows| {
      assert rows[..n] == rows;
    } else {
      var front := rows[..|rows| - 1];
      assert front[..n] == rows[..n];
      StoppedManageStays(d, orders, front, records, acknowledged, m, policy, n);
    }
  }
}
