/** The order-ledger transactions of `storage/database.py`. Each method is one
    `with self.connection` block: it commits every row it wrote, or raises and
    leaves the tables as they were. */
module Database {
  import opened Wrappers
  import opened Text
  import opened LedgerTables

  /** A transaction did what its specification says: the new tables and result
      on success, the old tables and the error otherwise. */
  ghost predicate Transacted<T(!new)>(before: Ledger, after: Ledger, spec: Outcome<(Ledger, T)>, r: Outcome<T>) {
    match spec
    case Done((l, v)) => after == l && r == Done(v)
    case Raised(e) => after == before && r == Raised(e)
  }

  class Database {
    var orders: map<string, Order>
    var fills: seq<Fill>
    var applied: seq<Fill>
    var positions: seq<Position>
    var decisions: map<string, Decision>

    // runtime metadata: "operator_review", "block_new_entries", the operator's
    // cancel-all request, and "order_management.pending.<client order id>"
    var review: bool
    var blockEntries: bool
    var cancelRequested: bool
    var pending: map<string, Marker>

    function State(): Ledger
      reads this
    {
      Ledger(orders, fills, applied, positions, decisions)
    }

    constructor (decisions: map<string, Decision>)
      ensures State() == Ledger(map[], [], [], [], decisions)
      ensures !review && !blockEntries && !cancelRequested && pending == map[]
    {
      orders, fills, applied, positions := map[], [], [], [];
      this.decisions := decisions;
      review, blockEntries, cancelRequested, pending := false, false, false, map[];
    }

    method ClaimOrderIntent(client: string, signal: Option<string>, symbol: string, side: Side,
                            quantity: int, price: real, now: int)
      returns (r: Outcome<bool>)
      modifies this`orders
      ensures Transacted(old(State()), State(), Claim(old(State()), client, signal, symbol, side, quantity, price, now), r)
    {
      if Blank(client) || (signal.Some? && Blank(signal.value)) || !StockCode(symbol) || quantity <= 0 || price <= 0.0 {
        return Raised(InvalidArgument);
      }
      if client in orders {
        return Done(false);
      }
      orders := orders[client := Order(signal, symbol, side, quantity, price, Intent, None, 0, None,
                                       now, now, None, None, None)];
      return Done(true);
    }

    method MarkOrderSubmitting(client: string, now: int) returns (r: Outcome<bool>)
      modifies this`orders
      ensures Transacted(old(State()), State(), MarkSubmitting(old(State()), client, now), r)
    {
      if Blank(client) {
        return Raised(InvalidArgument);
      }
      if client !in orders {
        return Done(false);
      }
      orders := orders[client := orders[client].(status := Submitting, updatedAt := now, error := None)];
      return Done(true);
    }

    method RecordOrderSubmission(client: string, brokerId: string, now: int) returns (r: Outcome<bool>)
      modifies this`orders
      ensures Transacted(old(State()), State(), RecordSubmission(old(State()), client, brokerId, now), r)
    {
      if Blank(client) || Blank(brokerId) {
        return Raised(InvalidArgument);
      }
      if client !in orders {
        return Done(false);
      }
      orders := orders[client := orders[client].(status := Acknowledged, brokerId := Some(brokerId),
                                                 submittedAt := Some(now), updatedAt := now, error := None)];
      return Done(true);
    }

    method MarkOrderUnknown(client: string, error: Option<string>, now: int) returns (r: Outcome<bool>)
      modifies this`orders
      ensures Transacted(old(State()), State(), MarkUnknown(old(State()), client, error, now), r)
    {
      if Blank(client) || (error.Some? && Blank(error.value)) {
        return Raised(InvalidArgument);
      }
      if client !in orders {
        return Done(false);
      }
      orders := orders[client := orders[client].(status := Unknown, updatedAt := now, error := error)];
      return Done(true);
    }

    method UpdateBrokerOrderStatus(client: string, status: Status, brokerId: Option<string>,
                                   filled: Option<int>, average: Option<real>, now: int)
      returns (r: Outcome<bool>)
      modifies this`orders
      ensures Transacted(old(State()), State(), UpdateStatus(old(State()), client, status, brokerId, filled, average, now), r)
    {
      if Blank(client) || (brokerId.Some? && Blank(brokerId.value)) || (filled.Some? && filled.value < 0)
         || (average.Some? && average.value <= 0.0) {
        return Raised(InvalidArgument);
      }
      if client !in orders || (filled.Some? && filled.value > orders[client].requested) {
        return Done(false);
      }
      var o := orders[client];
      if brokerId.Some? {
        o := o.(brokerId := brokerId);
      }
      if filled.Some? {
        o := o.(filled := filled.value);
      }
      if average.Some? {
        o := o.(average := average);
      }
      var completion := if status.Terminal() then Some(now) else None;
      orders := orders[client := o.(status := status, updatedAt := now, completedAt := completion, error := None)];
      return Done(true);
    }

    /** Inserts the fill first; when the roll-up then touches no order row, the
        insert is rolled back. */
    method ApplyBrokerFill(q: FillRequest) returns (r: Outcome<bool>)
      modifies this`orders, this`fills
      ensures Transacted(old(State()), State(), ApplyFill(old(State()), q), r)
    {
      if !q.WellFormed() {
        return Raised(InvalidArgument);
      }
      if q.client !in orders {
        return Raised(UnknownOrder);
      }
      var o := orders[q.client];
      if q.symbol.Some? && q.symbol.value != o.symbol {
        return Raised(FillSymbolMismatch);
      }
      if q.side.Some? && q.side.value != o.side {
        return Raised(FillSideMismatch);
      }
      if q.brokerId.Some? && o.brokerId.Some? && q.brokerId != o.brokerId {
        return Raised(FillBrokerIdMismatch);
      }
      var effective := if q.brokerId.Some? then q.brokerId else o.brokerId;
      if HasFill(fills, q.id) {
        return Done(false);
      }
      var savepoint := fills;
      fills := InsertFill(fills, Fill(q.id, q.client, effective, o.symbol, o.side, q.quantity, q.price,
                                      q.filledAt, q.createdAt));
      var cumulative := o.filled + q.quantity;
      if cumulative > o.requested {
        fills := savepoint;
        return Raised(FillExceedsOrder);
      }
      var previous := if o.average.Some? then o.average.value else 0.0;
      o := o.(average := Some(Blend(o.filled, previous, q.quantity, q.price)),
              filled := cumulative, updatedAt := q.filledAt, error := None);
      if o.brokerId.None? {
        o := o.(brokerId := effective);
      }
      if cumulative == o.requested {
        o := o.(status := Filled, completedAt := Some(q.filledAt));
      } else {
        o := o.(status := PartiallyFilled, completedAt := None);
      }
      orders := orders[q.client := o];
      return Done(true);
    }

    /** Writes the position change of one fill, or reports why it may not. */
    method TakeInFill(o: Order, client: string, f: Fill, plan: Plan) returns (error: Option<Error>)
      modifies this`positions
      ensures match TakeIn(old(positions), o, client, f, plan)
              case Done(ps) => positions == ps && error == None
              case Raised(e) => positions == old(positions) && error == Some(e)
    {
      var broker := if f.brokerId.Some? then f.brokerId else o.brokerId;
      var i := FirstOpen(positions, f.symbol);
      if f.side == Buy {
        if i == -1 {
          if !plan.Ladder(f.price) {
            return Some(MissingPriceLadder);
          }
          var signal := SignalOf(o, client);
          if KeyTaken(positions, signal) {
            return Some(DuplicatePosition);
          }
          positions := InsertPosition(positions, Position(PositionKey(signal), signal, f.symbol, f.quantity, f.price,
                                                          plan.stop.value, plan.take.value, f.filledAt, true, broker,
                                                          None, None, None, plan.holding));
          return None;
        }
        var p := positions[i];
        var quantity := p.quantity + f.quantity;
        positions := positions[i := p.(quantity := quantity, entry := Blend(p.quantity, p.entry, f.quantity, f.price))];
        return None;
      }
      if i == -1 {
        return Some(NoOpenPosition);
      }
      var p := positions[i];
      if f.quantity > p.quantity {
        return Some(SellExceedsPosition);
      }
      var left := p.quantity - f.quantity;
      if left == 0 {
        positions := positions[i := p.(quantity := 0, open := false, exitBroker := broker,
                                       closedAt := Some(f.filledAt), closeReason := Some(plan.closeReason))];
      } else {
        positions := positions[i := p.(quantity := left, exitBroker := broker)];
      }
      return None;
    }

    /** The loop over the selected fills; an error leaves a half-written
        transaction for the caller to roll back. */
    method TakeInRows(o: Order, client: string, rows: seq<Fill>, plan: Plan) returns (error: Option<Error>)
      modifies this`positions, this`applied
      ensures match TakeInAll(old(positions), o, client, rows, plan)
              case Done(ps) => positions == ps && applied == old(applied) + rows && error == None
              case Raised(e) => error == Some(e)
    {
      ghost var start := positions;
      var i := 0;
      while i < |rows|
        invariant 0 <= i <= |rows|
        invariant TakeInAll(start, o, client, rows[..i], plan) == Done(positions)
        invariant applied == old(applied) + rows[..i]
      {
        assert rows[..i + 1][..i] == rows[..i];
        error := TakeInFill(o, client, rows[i], plan);
        if error.Some? {
          TakeInAllFails(start, o, client, rows, plan, i + 1);
          return;
        }
        applied := applied + [rows[i]];
        i := i + 1;
      }
      assert rows[..i] == rows;
      return None;
    }

    method MaterializeOrderFills(client: string, plan: Plan) returns (r: Outcome<nat>)
      modifies this`positions, this`applied
      ensures Transacted(old(State()), State(), Materialize(old(State()), client, plan), r)
    {
      if Blank(client) || !plan.WellFormed() {
        return Raised(InvalidArgument);
      }
      if client !in orders {
        return Raised(UnknownOrder);
      }
      var rows := Unapplied(fills, applied, client);
      var savedPositions, savedApplied := positions, applied;
      var error := TakeInRows(orders[client], client, rows, plan);
      if error.Some? {
        positions, applied := savedPositions, savedApplied;
        return Raised(error.value);
      }
      return Done(|rows|);
    }
  }

  lemma {:induction false} TakeInAllFails(ps: seq<Position>, o: Order, client: string, fs: seq<Fill>, plan: Plan, n: nat)
    requires n <= |fs| && TakeInAll(ps, o, client, fs[..n], plan).Raised?
    ensures TakeInAll(ps, o, client, fs, plan) == TakeInAll(ps, o, client, fs[..n], plan)
    decreases |fs|
  {
    if n < |fs| {
      var front := fs[..|fs| - 1];
      assert front[..n] == fs[..n];
      TakeInAllFails(ps, o, client, front, plan, n);
    } else {
      assert fs[..n] == fs;
    }
  }
}
