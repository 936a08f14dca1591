/** The rows of the order ledger as values, and what each transaction of
    `storage/database.py` makes of them. A table the code reads in a fixed
    order is a sequence kept in that order; the others are maps. */
module LedgerTables {
  import opened Wrappers
  import opened Text

  datatype Side = Buy | Sell

  datatype Status =
    | Intent | Submitting | Acknowledged | PartiallyFilled | CancelPending | Unknown
    | Filled | Cancelled | Rejected
  {
    predicate Terminal() {
      Filled? || Cancelled? || Rejected?
    }
  }

  /** Columns with a `CHECK (... > 0)` constraint. */
  type Count = n: int | 0 < n witness 1
  type Price = x: real | 0.0 < x witness 1.0

  /** A row of `broker_orders`; its key is the client order id. */
  datatype Order = Order(
    signal: Option<string>, symbol: string, side: Side, requested: Count, price: Price,
    status: Status, brokerId: Option<string>, filled: nat, average: Option<real>,
    createdAt: int, updatedAt: int, submittedAt: Option<int>, completedAt: Option<int>,
    error: Option<string>)

  /** A row of `broker_fills`. */
  datatype Fill = Fill(
    id: string, client: string, brokerId: Option<string>, symbol: string, side: Side,
    quantity: Count, price: Price, filledAt: int, createdAt: int)
  {
    function Money(): real {
      Times(price, quantity)
    }
  }

  /** A row of `live_positions`. */
  datatype Position = Position(
    id: string, signal: string, symbol: string, quantity: nat, entry: real, stop: real,
    take: real, openedAt: int, open: bool, entryBroker: Option<string>,
    exitBroker: Option<string>, closedAt: Option<int>, closeReason: Option<string>,
    holding: Option<int>)

  /** An order's pending-cancel marker. `Confirmed` is the bare word the code
      stores last; it does not parse as JSON and so reads back as an invalid marker. */
  datatype Marker = Requested | Confirmed

  /** The risk columns of a row of `ai_decision_audits`. */
  datatype Decision = Decision(stop: Option<real>, take: Option<real>, holding: Option<int>)

  /** `fills` is ordered by (filled_at, fill_id) and `positions` by (opened_at,
      position_id). A row of `live_position_fill_applications` is kept as the
      fill it refers to, in the order the rows were inserted. */
  datatype Ledger = Ledger(
    orders: map<string, Order>, fills: seq<Fill>, applied: seq<Fill>,
    positions: seq<Position>, decisions: map<string, Decision>)

  /** A price for a number of shares. */
  function Times(price: real, shares: int): real {
    price * shares as real
  }

  /** The quantity-weighted mean of a running average and one more fill. */
  function Blend(quantity: nat, average: real, more: Count, price: real): real {
    (quantity as real * average + more as real * price) / (quantity + more) as real
  }

  // ---------------------------------------------------------------- fills

  predicate FillBefore(a: Fill, b: Fill) {
    a.filledAt < b.filledAt || (a.filledAt == b.filledAt && LexLess(a.id, b.id))
  }

  function InsertFill(fs: seq<Fill>, f: Fill): (r: seq<Fill>)
    ensures multiset(r) == multiset(fs) + multiset{f}
    ensures |r| == |fs| + 1
  {
    if fs == [] || FillBefore(f, fs[0]) then
      assert multiset([f] + fs) == multiset{f} + multiset(fs);
      [f] + fs
    else
      assert fs == [fs[0]] + fs[1..];
      [fs[0]] + InsertFill(fs[1..], f)
  }

  predicate HasFill(fs: seq<Fill>, id: string) {
    exists i | 0 <= i < |fs| :: fs[i].id == id
  }

  /** The fills of one order that no position has taken in, in table order. */
  function Unapplied(fs: seq<Fill>, applied: seq<Fill>, client: string): (r: seq<Fill>)
    ensures forall f :: f in r <==> f in fs && f.client == client && !HasFill(applied, f.id)
  {
    if fs == [] then []
    else
      var rest := Unapplied(fs[1..], applied, client);
      assert forall f :: f in fs <==> f == fs[0] || f in fs[1..];
      if fs[0].client == client && !HasFill(applied, fs[0].id) then [fs[0]] + rest else rest
  }

  /** A sum over fills, and the same for money. */
  function Total(fs: seq<Fill>, w: Fill -> int): int {
    if fs == [] then 0 else w(fs[0]) + Total(fs[1..], w)
  }

  function Worth(fs: seq<Fill>, w: Fill -> real): real {
    if fs == [] then 0.0 else w(fs[0]) + Worth(fs[1..], w)
  }

  /** Shares and money filled on one order. */
  function SharesOf(client: string): Fill -> int {
    (f: Fill) => if f.client == client then f.quantity else 0
  }

  function MoneyOf(client: string): Fill -> real {
    (f: Fill) => if f.client == client then f.Money() else 0.0
  }

  /** Shares bought less shares sold of one symbol. */
  function NetOf(symbol: string): Fill -> int {
    (f: Fill) => var q: int := f.quantity; if f.symbol != symbol then 0 else if f.side == Buy then q else -q
  }

  // ------------------------------------------------------------ positions

  predicate PositionBefore(a: Position, b: Position) {
    a.openedAt < b.openedAt || (a.openedAt == b.openedAt && LexLess(a.id, b.id))
  }

  function InsertPosition(ps: seq<Position>, p: Position): (r: seq<Position>)
    ensures |r| == |ps| + 1
    ensures multiset(r) == multiset(ps) + multiset{p}
  {
    if ps == [] || PositionBefore(p, ps[0]) then
      assert multiset([p] + ps) == multiset{p} + multiset(ps);
      [p] + ps
    else
      assert ps == [ps[0]] + ps[1..];
      [ps[0]] + InsertPosition(ps[1..], p)
  }

  /** The row `SELECT ... WHERE symbol=? AND status='OPEN' ... LIMIT 1` returns, or -1. */
  function FirstOpen(ps: seq<Position>, symbol: string): (i: int)
    ensures -1 <= i < |ps|
    ensures 0 <= i ==> ps[i].open && ps[i].symbol == symbol
    ensures forall k :: 0 <= k < (if i == -1 then |ps| else i) ==> !(ps[k].open && ps[k].symbol == symbol)
  {
    if ps == [] then -1
    else if ps[0].open && ps[0].symbol == symbol then 0
    else
      var j := FirstOpen(ps[1..], symbol);
      assert forall k :: 0 < k < |ps| ==> ps[k] == ps[1..][k - 1];
      if j == -1 then -1 else j + 1
  }

  function OpenShares(p: Position, symbol: string): nat {
    if p.open && p.symbol == symbol then p.quantity else 0
  }

  /** `SUM(quantity)` over the open positions of a symbol. */
  function OpenQuantity(ps: seq<Position>, symbol: string): nat {
    if ps == [] then 0 else OpenShares(ps[0], symbol) + OpenQuantity(ps[1..], symbol)
  }

  // --------------------------------------------------------- transactions

  function PutOrder(l: Ledger, client: string, o: Order): Ledger {
    l.(orders := l.orders[client := o])
  }

  function Claim(l: Ledger, client: string, signal: Option<string>, symbol: string, side: Side,
                 quantity: int, price: real, now: int): Outcome<(Ledger, bool)>
  {
    if Blank(client) || (signal.Some? && Blank(signal.value)) || !StockCode(symbol)
       || quantity <= 0 || price <= 0.0 then Raised(InvalidArgument)
    else if client in l.orders then Done((l, false))
    else Done((PutOrder(l, client, Order(signal, symbol, side, quantity, price, Intent, None, 0, None,
                                         now, now, None, None, None)), true))
  }

  function MarkSubmitting(l: Ledger, client: string, now: int): Outcome<(Ledger, bool)> {
    if Blank(client) then Raised(InvalidArgument)
    else if client !in l.orders then Done((l, false))
    else Done((PutOrder(l, client, l.orders[client].(status := Submitting, updatedAt := now, error := None)), true))
  }

  function RecordSubmission(l: Ledger, client: string, brokerId: string, now: int): Outcome<(Ledger, bool)> {
    if Blank(client) || Blank(brokerId) then Raised(InvalidArgument)
    else if client !in l.orders then Done((l, false))
    else Done((PutOrder(l, client, l.orders[client].(status := Acknowledged, brokerId := Some(brokerId),
                                                     submittedAt := Some(now), updatedAt := now, error := None)), true))
  }

  function MarkUnknown(l: Ledger, client: string, error: Option<string>, now: int): Outcome<(Ledger, bool)> {
    if Blank(client) || (error.Some? && Blank(error.value)) then Raised(InvalidArgument)
    else if client !in l.orders then Done((l, false))
    else Done((PutOrder(l, client, l.orders[client].(status := Unknown, updatedAt := now, error := error)), true))
  }

  function UpdatedStatus(o: Order, status: Status, brokerId: Option<string>, filled: Option<nat>,
                         average: Option<real>, now: int): Order
  {
    o.(status := status, brokerId := brokerId.Or(o.brokerId), filled := filled.GetOr(o.filled),
       average := average.Or(o.average), updatedAt := now,
       completedAt := if status.Terminal() then Some(now) else None, error := None)
  }

  /** `update_broker_order_status`; every caller leaves `error` out and passes
      the same instant as completion and update time. */
  function UpdateStatus(l: Ledger, client: string, status: Status, brokerId: Option<string>,
                        filled: Option<int>, average: Option<real>, now: int): Outcome<(Ledger, bool)>
  {
    if Blank(client) || (brokerId.Some? && Blank(brokerId.value)) || (filled.Some? && filled.value < 0)
       || (average.Some? && average.value <= 0.0) then Raised(InvalidArgument)
    else if client !in l.orders || (filled.Some? && filled.value > l.orders[client].requested) then Done((l, false))
    else
      var count: Option<nat> := if filled.Some? then Some(filled.value) else None;
      Done((PutOrder(l, client, UpdatedStatus(l.orders[client], status, brokerId, count, average, now)), true))
  }

  datatype FillRequest = FillRequest(
    id: string, client: string, quantity: int, price: real, filledAt: int,
    brokerId: Option<string>, symbol: Option<string>, side: Option<Side>, createdAt: int)
  {
    predicate WellFormed() {
      && !Blank(id) && !Blank(client) && quantity > 0 && price > 0.0
      && (brokerId.Some? ==> !Blank(brokerId.value)) && (symbol.Some? ==> StockCode(symbol.value))
    }
  }

  function RolledUp(o: Order, quantity: Count, price: Price, brokerId: Option<string>, filledAt: int): Order {
    var filled := o.filled + quantity;
    o.(filled := filled,
       average := Some(Blend(o.filled, o.average.GetOr(0.0), quantity, price)),
       status := if filled == o.requested then Filled else PartiallyFilled,
       brokerId := o.brokerId.Or(brokerId), updatedAt := filledAt,
       completedAt := if filled == o.requested then Some(filledAt) else None, error := None)
  }

  function ApplyFill(l: Ledger, r: FillRequest): Outcome<(Ledger, bool)> {
    if !r.WellFormed() then Raised(InvalidArgument)
    else if r.client !in l.orders then Raised(UnknownOrder)
    else
      var o := l.orders[r.client];
      if r.symbol.Some? && r.symbol.value != o.symbol then Raised(FillSymbolMismatch)
      else if r.side.Some? && r.side.value != o.side then Raised(FillSideMismatch)
      else if r.brokerId.Some? && o.brokerId.Some? && r.brokerId != o.brokerId then Raised(FillBrokerIdMismatch)
      else if HasFill(l.fills, r.id) then Done((l, false))
      else if o.filled + r.quantity > o.requested then Raised(FillExceedsOrder)
      else
        var brokerId := r.brokerId.Or(o.brokerId);
        var f := Fill(r.id, r.client, brokerId, o.symbol, o.side, r.quantity, r.price, r.filledAt, r.createdAt);
        Done((l.(fills := InsertFill(l.fills, f),
                 orders := l.orders[r.client := RolledUp(o, r.quantity, r.price, brokerId, r.filledAt)]), true))
  }

  /** The keyword arguments of `materialize_order_fills`. */
  datatype Plan = Plan(stop: Option<real>, take: Option<real>, holding: Option<int>, closeReason: string) {
    predicate WellFormed() {
      && (stop.Some? ==> stop.value > 0.0) && (take.Some? ==> take.value > 0.0)
      && (holding.Some? ==> holding.value > 0) && closeReason != ""
    }

    predicate Ladder(price: real) {
      stop.Some? && take.Some? && stop.value < price < take.value
    }
  }

  function PositionKey(signal: string): string {
    "live-position:" + signal
  }

  function SignalOf(o: Order, client: string): string {
    if o.signal.Some? && o.signal.value != "" then o.signal.value else "fill:" + client
  }

  predicate KeyTaken(ps: seq<Position>, signal: string) {
    exists i | 0 <= i < |ps| :: ps[i].id == PositionKey(signal) || ps[i].signal == signal
  }

  /** What one fill does to the positions table. */
  function TakeIn(ps: seq<Position>, o: Order, client: string, f: Fill, plan: Plan): Outcome<seq<Position>> {
    var i := FirstOpen(ps, f.symbol);
    if f.side == Buy then
      if i == -1 then
        var signal := SignalOf(o, client);
        if !plan.Ladder(f.price) then Raised(MissingPriceLadder)
        else if KeyTaken(ps, signal) then Raised(DuplicatePosition)
        else Done(InsertPosition(ps, Position(PositionKey(signal), signal, f.symbol, f.quantity, f.price,
                                              plan.stop.value, plan.take.value, f.filledAt, true,
                                              f.brokerId.Or(o.brokerId), None, None, None, plan.holding)))
      else
        var p := ps[i];
        var quantity := p.quantity + f.quantity;
        Done(ps[i := p.(quantity := quantity,
                        entry := Blend(p.quantity, p.entry, f.quantity, f.price))])
    else if i == -1 then Raised(NoOpenPosition)
    else
      var p := ps[i];
      var broker := f.brokerId.Or(o.brokerId);
      if f.quantity > p.quantity then Raised(SellExceedsPosition)
      else if f.quantity == p.quantity then
        Done(ps[i := p.(quantity := 0, open := false, exitBroker := broker, closedAt := Some(f.filledAt),
                        closeReason := Some(plan.closeReason))])
      else Done(ps[i := p.(quantity := p.quantity - f.quantity, exitBroker := broker)])
  }

  /** Taking in the first `|fs|` fills of the list, all or none. */
  function TakeInAll(ps: seq<Position>, o: Order, client: string, fs: seq<Fill>, plan: Plan): Outcome<seq<Position>> {
    if fs == [] then Done(ps)
    else
      match TakeInAll(ps, o, client, fs[..|fs| - 1], plan)
      case Raised(e) => Raised(e)
      case Done(mid) => TakeIn(mid, o, client, fs[|fs| - 1], plan)
  }

  function Materialize(l: Ledger, client: string, plan: Plan): Outcome<(Ledger, nat)> {
    if Blank(client) || !plan.WellFormed() then Raised(InvalidArgument)
    else if client !in l.orders then Raised(UnknownOrder)
    else
      var fs := Unapplied(l.fills, l.applied, client);
      match TakeInAll(l.positions, l.orders[client], client, fs, plan)
      case Raised(e) => Raised(e)
      case Done(ps) => Done((l.(positions := ps, applied := l.applied + fs), |fs|))
  }
}
