/** The running service: one trading loop, one order supervisor, and the broker,
    interleaved transaction by transaction. The trading loop may crash between
    any two of its steps and start over; a supervisor pass is one step. */
module ServiceRun {
  import opened Wrappers
  import opened Text
  import opened LedgerTables
  import opened LedgerInvariant
  import opened LedgerRuns
  import opened BrokerRecords
  import opened Reconciliation
  import opened OrderManagement
  import opened TruthfulBroker
  import opened ReconcileTruth
  import opened PassTruth
  import opened ReconcileTheorems
  import opened ManageTruth

  /** An order the trading loop is about to place. */
  datatype Ticket = Ticket(client: string, signal: string, symbol: string, side: Side, quantity: Count, price: Price)

  /** Where the trading loop is. */
  datatype Trader =
    | Idle
    | SawPosition(symbol: string, signal: string, quantity: int)
    | Vetted(ticket: Ticket)
    | Claimed(ticket: Ticket)
    | Marked(ticket: Ticket)
    | Refused(ticket: Ticket)                            // the guard raised
    | Cleared(ticket: Ticket)                            // the guard passed
    | Answered(ticket: Ticket, number: Option<string>)   // the broker was called

  /** `calls` lists the client order ids the broker was called with. */
  datatype World = World(
    ledger: Ledger, pending: map<string, Marker>, review: bool, blockEntries: bool, cancelRequested: bool,
    broker: map<string, BrokerOrder>, calls: seq<string>, trader: Trader, maxRequotes: nat)

  /** What a supervisor pass reads, and the order of its rows; `account` is absent
      when that query failed. */
  datatype Snapshot = Snapshot(
    records: seq<Record>, rows: seq<string>, buys: seq<string>, open: seq<string>, acknowledged: set<string>,
    market: Market, policy: Policy, account: Option<map<string, int>>)

  datatype Event =
    | ReadPosition(symbol: string)
    | VetExit(client: string, price: Price)
    | VetEntry(ticket: Ticket)
    | ClaimIt(at: int)
    | MarkIt(at: int)
    | Guard(otherwiseAllowed: bool)
    | CallBroker(number: string, accepted: bool, replied: bool)
    | Finish(at: int)
    | Crash
    | BrokerFills(number: string, quantity: Count, price: Price)
    | BrokerCloses(number: string, how: Closed)
    | OperatorCancelsBuys
    | QueryFails
    | Supervise(snapshot: Snapshot)

  // -------------------------------------------------- the trading loop's reads

  predicate Unresolved(orders: map<string, Order>, symbol: string, side: Side) {
    exists c | c in orders :: orders[c].symbol == symbol && orders[c].side == side && !orders[c].status.Terminal()
  }

  predicate IsExit(o: Order, signal: string, symbol: string) {
    o.side == Sell && o.signal == Some(signal) && o.symbol == symbol
  }

  function ExitOrders(orders: map<string, Order>, signal: string, symbol: string): set<string> {
    set c | c in orders && IsExit(orders[c], signal, symbol)
  }

  /** A BUY row the last-moment guard takes for unresolved. */
  predicate SeenByGuard(o: Order) {
    o.side == Buy && (o.status == Acknowledged || o.status == PartiallyFilled || o.status == CancelPending || o.status == Unknown)
  }

  /** The table checks of the guard; the runtime controls and the lease are the
      event's `otherwiseAllowed`. */
  predicate GuardPasses(w: World, t: Ticket) {
    if t.side == Buy then
      !w.review && !w.blockEntries && !(exists c | c in w.ledger.orders :: SeenByGuard(w.ledger.orders[c]))
    else
      0 < OpenQuantity(w.ledger.positions, t.symbol) && t.quantity <= OpenQuantity(w.ledger.positions, t.symbol)
  }

  // ------------------------------------------------------- the supervisor pass

  ghost predicate ListOf(rows: seq<string>, ids: set<string>) {
    NoRepeats(rows) && forall c :: c in rows <==> c in ids
  }

  ghost function AfterReconcile(w: World, s: Snapshot): Progress
    requires RowsOf(w.ledger, s.rows)
  {
    Pass(w.ledger, s.rows, s.records, s.market.now)
  }

  ghost function AfterCancels(w: World, s: Snapshot, l: Ledger): Desk
    requires forall c :: c in s.buys ==> c in l.orders
  {
    var d := Desk(l, w.pending, [], 0, 0, 0, None);
    if w.cancelRequested then CancelBuyRows(d, l.orders, s.buys, s.records, s.acknowledged, s.market.now) else d
  }

  ghost function AfterManage(s: Snapshot, d: Desk): Desk
    requires forall c :: c in s.open ==> c in d.ledger.orders
  {
    ManageRows(d.(waiting := 0), d.ledger.orders, s.open, s.records, s.acknowledged, s.market, s.policy)
  }

  /** The snapshot is true, and the rows are the selected ones. */
  ghost predicate Sensible(w: World, s: Snapshot) {
    && RowsOf(w.ledger, s.rows) && Truthful(s.records, w.broker)
    && var q := AfterReconcile(w, s);
    && ListOf(s.buys, ActiveBuyIds(q.ledger))
    && var d := AfterCancels(w, s, q.ledger);
    && ListOf(s.open, OpenIds(d.ledger))
  }

  /** The reconcile part has something to explain: a row's reason, a working broker
      order no row is about, no account, or a symbol held differently there. */
  ghost predicate HasReasons(l: Ledger, q: Progress, rows: seq<string>, records: seq<Record>, account: Option<map<string, int>>)
    requires forall c :: c in rows ==> c in l.orders
  {
    || q.tally.reasons != []
    || (exists n :: Unexplained(l.orders, rows, records, n))
    || account.None?
    || exists symbol :: OpenQuantity(q.ledger.positions, symbol) != QuantityIn(account.value, symbol)
  }

  ghost function AfterSupervise(w: World, s: Snapshot): World
    requires Sensible(w, s)
  {
    var q := AfterReconcile(w, s);
    var d := AfterCancels(w, s, q.ledger);
    var e := AfterManage(s, d);
    if q.error.Some? then w.(ledger := q.ledger, review := true, blockEntries := true)
    else if d.error.Some? then w.(ledger := d.ledger, pending := d.pending, cancelRequested := false, review := true, blockEntries := true)
    else if e.error.Some? then w.(ledger := e.ledger, pending := e.pending, cancelRequested := false, review := true, blockEntries := true)
    else
      var review := HasReasons(w.ledger, q, s.rows, s.records, s.account) || e.unknown > 0;
      w.(ledger := e.ledger, pending := e.pending, cancelRequested := false, review := review,
         blockEntries := review || e.waiting > 0)
  }

  // -------------------------------------------------------------- the steps

  ghost predicate Enabled(w: World, e: Event) {
    match e
    case ReadPosition(symbol) => w.trader.Idle? && FirstOpen(w.ledger.positions, symbol) != -1
    case VetExit(_, _) => w.trader.SawPosition? && w.trader.quantity > 0
    case VetEntry(t) => w.trader.Idle? && t.side == Buy
    case ClaimIt(_) => w.trader.Vetted?
    case MarkIt(_) => w.trader.Claimed?
    case Guard(_) => w.trader.Marked?
    case CallBroker(number, accepted, _) => w.trader.Cleared? && (accepted ==> number !in w.broker && !Blank(number))
    case Finish(_) => w.trader.Answered? || w.trader.Refused?
    case BrokerFills(n, quantity, _) =>
      n in w.broker && w.broker[n].closed.None? && w.broker[n].filled + quantity <= w.broker[n].quantity
    case BrokerCloses(n, _) => n in w.broker && !w.broker[n].Finished()
    case Supervise(s) => Sensible(w, s)
    case _ => true
  }

  ghost function Next(w: World, e: Event): World
    requires Enabled(w, e)
  {
    match e
    case ReadPosition(symbol) =>
      var p := w.ledger.positions[FirstOpen(w.ledger.positions, symbol)];
      w.(trader := SawPosition(symbol, p.signal, p.quantity))
    case VetExit(client, price) =>
      var t := w.trader;
      if Unresolved(w.ledger.orders, t.symbol, Sell) then w.(trader := Idle)
      else if |ExitOrders(w.ledger.orders, t.signal, t.symbol)| > w.maxRequotes
      then w.(trader := Idle, review := true, blockEntries := true)
      else w.(trader := Vetted(Ticket(client, t.signal, t.symbol, Sell, t.quantity, price)))
    case VetEntry(t) => w.(trader := Vetted(t))
    case ClaimIt(at) =>
      var t := w.trader.ticket;
      var r := Claim(w.ledger, t.client, Some(t.signal), t.symbol, t.side, t.quantity, t.price, at);
      if r.Done? && r.value.1 then w.(ledger := r.value.0, trader := Claimed(t)) else w.(trader := Idle)
    case MarkIt(at) =>
      var t := w.trader.ticket;
      w.(ledger := After(w.ledger, MarkSubmitting(w.ledger, t.client, at)), trader := Marked(t))
    case Guard(allowed) =>
      var t := w.trader.ticket;
      w.(trader := if allowed && GuardPasses(w, t) then Cleared(t) else Refused(t))
    case CallBroker(number, accepted, replied) =>
      var t := w.trader.ticket;
      var called := w.(calls := w.calls + [t.client],
                       trader := Answered(t, if accepted && replied then Some(number) else None));
      if accepted
      then called.(broker := w.broker[number := BrokerOrder(t.client, t.symbol, t.side, t.quantity, 0, 0.0, None)])
      else called
    case Finish(at) =>
      var c := w.trader.ticket.client;
      if w.trader.Answered? && w.trader.number.Some?
      then w.(ledger := After(w.ledger, RecordSubmission(w.ledger, c, w.trader.number.value, at)), trader := Idle)
      else w.(ledger := After(w.ledger, MarkUnknown(w.ledger, c, Some("order_unknown"), at)), trader := Idle)
    case Crash => w.(trader := Idle)
    case BrokerFills(n, quantity, price) =>
      var b := w.broker[n];
      w.(broker := w.broker[n := b.(filled := b.filled + quantity, notional := b.notional + Times(price, quantity))])
    case BrokerCloses(n, how) => w.(broker := w.broker[n := w.broker[n].(closed := Some(how))])
    case OperatorCancelsBuys => w.(cancelRequested := true)
    case QueryFails => w.(review := true, blockEntries := true, cancelRequested := false)
    case Supervise(s) => AfterSupervise(w, s)
  }

  ghost function Initial(decisions: map<string, Decision>, maxRequotes: nat): World {
    World(Ledger(map[], [], [], [], decisions), map[], false, false, false, map[], [], Idle, maxRequotes)
  }

  /** `ws` is a run from an empty ledger through the events `es`. */
  ghost predicate Run(ws: seq<World>, es: seq<Event>) {
    && |ws| == |es| + 1
    && ws[0] == Initial(ws[0].ledger.decisions, ws[0].maxRequotes)
    && forall i :: 0 <= i < |es| ==> Enabled(ws[i], es[i]) && ws[i + 1] == Next(ws[i], es[i])
  }
}
