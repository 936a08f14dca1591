/** Placing one order: `execution/guarded_submitter.py` and the submission paths of
    `pipeline/auto_trade.py`. Run without interruption, a call is the trading
    loop's steps of the service in turn. */
module AutoTrade {
  import opened Wrappers
  import opened Text
  import opened LedgerTables
  import opened LedgerRuns
  import opened Database
  import opened OrderManagement
  import opened TruthfulBroker
  import opened ServiceRun
  import opened OrderSupervisor

  /** What the broker does with a call. */
  datatype Reply = Refuses | AcceptsSilently(number: string) | Accepts(number: string)

  /** The broker at the other end of `submit_order`. */
  class Broker {
    var calls: seq<string>
    var book: map<string, BrokerOrder>

    constructor ()
      ensures calls == [] && book == map[]
    {
      calls, book := [], map[];
    }

    method SubmitOrder(t: Ticket, reply: Reply) returns (number: Option<string>)
      modifies this
      ensures calls == old(calls) + [t.client]
      ensures book == if reply.Refuses? then old(book)
                      else old(book)[reply.number := BrokerOrder(t.client, t.symbol, t.side, t.quantity, 0, 0.0, None)]
      ensures number == if reply.Accepts? then Some(reply.number) else None
    {
      calls := calls + [t.client];
      if !reply.Refuses? {
        book := book[reply.number := BrokerOrder(t.client, t.symbol, t.side, t.quantity, 0, 0.0, None)];
      }
      number := if reply.Accepts? then Some(reply.number) else None;
    }
  }

  /** The guard's checks outside the order tables: the runtime controls and the
      lease, read before and after the table checks, and the market. */
  datatype Gate = Gate(controls: bool, market: bool, controlsAgain: bool) {
    predicate Open() {
      controls && market && controlsAgain
    }
  }

  /** A rejected gate never reaches the broker; one that passes reaches it once. */
  method GuardedSubmit(db: Database, broker: Broker, t: Ticket, gate: Gate, reply: Reply, ghost w: World)
    returns (passed: bool, number: Option<string>)
    requires Shows(db, w)
    modifies broker
    ensures passed == (gate.controls && gate.market && gate.controlsAgain && GuardPasses(w, t))
    ensures !passed ==> number == None && broker.calls == old(broker.calls) && broker.book == old(broker.book)
    ensures passed ==>
              && broker.calls == old(broker.calls) + [t.client] && number == (if reply.Accepts? then Some(reply.number) else None)
              && broker.book == if reply.Refuses? then old(broker.book)
                                else old(broker.book)[reply.number := BrokerOrder(t.client, t.symbol, t.side, t.quantity, 0, 0.0, None)]
  {
    passed, number := false, None;
    if !gate.controls || !gate.market {
      return;
    }
    if t.side == Buy {
      if db.blockEntries || db.review || exists c | c in db.orders :: SeenByGuard(db.orders[c]) {
        return;
      }
    } else {
      var available := OpenQuantity(db.positions, t.symbol);
      if available <= 0 || t.quantity > available {
        return;
      }
    }
    if !gate.controlsAgain {
      return;
    }
    passed := true;
    number := broker.SubmitOrder(t, reply);
  }

  // --------------------------------------------------------------- playing

  ghost predicate Playable(w: World, es: seq<Event>)
    decreases |es|
  {
    es != [] ==> Enabled(w, es[0]) && Playable(Next(w, es[0]), es[1..])
  }

  ghost function Played(w: World, es: seq<Event>): World
    requires Playable(w, es)
    decreases |es|
  {
    if es == [] then w else Played(Next(w, es[0]), es[1..])
  }

  /** Both ends of the wire hold what the world says. */
  ghost predicate Mirrored(db: Database, broker: Broker, w: World)
    reads db, broker
  {
    Shows(db, w) && broker.calls == w.calls && broker.book == w.broker
  }

  lemma OneMore(w: World, e: Event, v: World, es: seq<Event>)
    requires Enabled(w, e) && Next(w, e) == v && Playable(v, es)
    ensures Playable(w, [e] + es) && Played(w, [e] + es) == Played(v, es)
  {
    assert ([e] + es)[1..] == es;
  }

  lemma NoSteps(w: World)
    ensures Playable(w, []) && Played(w, []) == w
  {
  }

  predicate FreshReply(book: map<string, BrokerOrder>, reply: Reply) {
    !reply.Refuses? ==> reply.number !in book && !Blank(reply.number)
  }

  function CallEvent(reply: Reply): Event {
    match reply
    case Refuses => CallBroker("", false, false)
    case AcceptsSilently(n) => CallBroker(n, true, false)
    case Accepts(n) => CallBroker(n, true, true)
  }

  /** The last event: recording the broker number, or giving the order up as unknown. */
  ghost function Recording(l: Ledger, t: Ticket, number: Option<string>, now: int): Ledger {
    if number.Some? then After(l, RecordSubmission(l, t.client, number.value, now))
    else After(l, MarkUnknown(l, t.client, Some("order_unknown"), now))
  }

  lemma AnswerFinished(w: World, t: Ticket, number: Option<string>, now: int)
    requires if number.Some? then w.trader == Answered(t, number) else w.trader == Answered(t, None) || w.trader == Refused(t)
    ensures Playable(w, [Finish(now)])
    ensures Played(w, [Finish(now)]) == w.(ledger := Recording(w.ledger, t, number, now), trader := Idle)
  {
    hide GuardPasses, Sensible, AfterSupervise, Unresolved, ExitOrders;
    var v := Next(w, Finish(now));
    assert Playable(v, []);
    OneMore(w, Finish(now), v, []);
    assert [Finish(now)] + [] == [Finish(now)];
  }

  lemma ClearedFinished(w: World, t: Ticket, reply: Reply, now: int)
    requires w.trader == Cleared(t) && FreshReply(w.broker, reply)
    ensures var es := [CallEvent(reply), Finish(now)];
            && Playable(w, es)
            && Played(w, es) == w.(ledger := Recording(w.ledger, t, if reply.Accepts? then Some(reply.number) else None, now),
                                   trader := Idle, calls := w.calls + [t.client],
                                   broker := if reply.Refuses? then w.broker
                                             else w.broker[reply.number := BrokerOrder(t.client, t.symbol, t.side, t.quantity, 0, 0.0, None)])
  {
    hide GuardPasses, Sensible, AfterSupervise, Unresolved, ExitOrders, RecordSubmission, MarkUnknown;
    var v := Next(w, CallEvent(reply));
    AnswerFinished(v, t, if reply.Accepts? then Some(reply.number) else None, now);
    OneMore(w, CallEvent(reply), v, [Finish(now)]);
    assert [CallEvent(reply)] + [Finish(now)] == [CallEvent(reply), Finish(now)];
  }

  /** The guard lets the ticket through. */
  ghost predicate LetThrough(w: World, t: Ticket, gate: Gate) {
    gate.Open() && GuardPasses(w, t)
  }

  /** Guarding, then calling if let through, then recording. */
  ghost function PlacingEvents(passed: bool, gate: Gate, reply: Reply, now: int): seq<Event> {
    [Guard(gate.Open())] + ((if passed then [CallEvent(reply)] else []) + [Finish(now)])
  }

  /** Where those events lead. */
  lemma PlacingRuns(w: World, t: Ticket, gate: Gate, reply: Reply, now: int)
    requires w.trader == Marked(t) && FreshReply(w.broker, reply)
    ensures var passed, es := LetThrough(w, t, gate), PlacingEvents(LetThrough(w, t, gate), gate, reply, now);
            && Playable(w, es)
            && Played(w, es) == w.(ledger := Recording(w.ledger, t, if passed && reply.Accepts? then Some(reply.number) else None, now),
                                   trader := Idle, calls := w.calls + (if passed then [t.client] else []),
                                   broker := if !passed || reply.Refuses? then w.broker
                                             else w.broker[reply.number := BrokerOrder(t.client, t.symbol, t.side, t.quantity, 0, 0.0, None)])
  {
    hide GuardPasses, Recording, Next, Enabled, FreshReply, Playable, Played;
    var passed := LetThrough(w, t, gate);
    var v := w.(trader := if passed then Cleared(t) else Refused(t));
    Guarded(w, t, gate.Open());
    if passed {
      ClearedFinished(v, t, reply, now);
      OneMore(w, Guard(gate.Open()), v, [CallEvent(reply), Finish(now)]);
      assert [CallEvent(reply), Finish(now)] == [CallEvent(reply)] + [Finish(now)];
    } else {
      AnswerFinished(v, t, None, now);
      OneMore(w, Guard(gate.Open()), v, [Finish(now)]);
      assert [Finish(now)] == [] + [Finish(now)];
      assert w.calls + [] == w.calls;
    }
  }

  /** Guarding, calling and recording, from a marked order on. */
  method SubmitMarked(db: Database, broker: Broker, t: Ticket, gate: Gate, reply: Reply, now: int, ghost w: World)
    returns (submitted: bool, ghost es: seq<Event>)
    requires Mirrored(db, broker, w) && w.trader == Marked(t) && FreshReply(w.broker, reply)
    modifies db`orders, broker
    ensures es == PlacingEvents(LetThrough(w, t, gate), gate, reply, now)
    ensures Playable(w, es) && Mirrored(db, broker, Played(w, es)) && Played(w, es).trader == Idle
    ensures broker.calls == old(broker.calls) + if LetThrough(w, t, gate) then [t.client] else []
    ensures submitted == (LetThrough(w, t, gate) && reply.Accepts?)
  {
    hide GuardPasses, RecordSubmission, MarkUnknown, Next, Enabled, FreshReply, Playable, Played, PlacingEvents;
    PlacingRuns(w, t, gate, reply, now);
    es := PlacingEvents(LetThrough(w, t, gate), gate, reply, now);
    var passed, number := GuardedSubmit(db, broker, t, gate, reply, w);
    if number.None? {
      var unknown := db.MarkOrderUnknown(t.client, Some("order_unknown"), now);
    } else {
      var recorded := db.RecordOrderSubmission(t.client, number.value, now);
    }
    submitted := number.Some?;
  }

  lemma Guarded(w: World, t: Ticket, allowed: bool)
    requires w.trader == Marked(t)
    ensures Enabled(w, Guard(allowed))
    ensures Next(w, Guard(allowed)) == w.(trader := if allowed && GuardPasses(w, t) then Cleared(t) else Refused(t))
  {
    hide GuardPasses, Sensible, AfterSupervise;
  }

  /** After the claim: marking, guarding, calling and recording. */
  method SubmitClaimed(db: Database, broker: Broker, t: Ticket, gate: Gate, reply: Reply, now: int, ghost w: World)
    returns (submitted: bool, ghost es: seq<Event>)
    requires Mirrored(db, broker, w) && w.trader == Claimed(t) && FreshReply(w.broker, reply)
    modifies db`orders, broker
    ensures es == [MarkIt(now)] + PlacingEvents(LetThrough(Next(w, MarkIt(now)), t, gate), gate, reply, now)
    ensures Playable(w, es) && Mirrored(db, broker, Played(w, es)) && Played(w, es).trader == Idle
    ensures broker.calls == old(broker.calls) + if LetThrough(Next(w, MarkIt(now)), t, gate) then [t.client] else []
    ensures submitted == (LetThrough(Next(w, MarkIt(now)), t, gate) && reply.Accepts?)
  {
    hide GuardPasses, Sensible, AfterSupervise, Unresolved, ExitOrders, FreshReply, PlacingEvents;
    var marked := db.MarkOrderSubmitting(t.client, now);
    ghost var v := Next(w, MarkIt(now));
    submitted, es := SubmitMarked(db, broker, t, gate, reply, now, v);
    OneMore(w, MarkIt(now), v, es);
    es := [MarkIt(now)] + es;
  }

  /** The claim inserts a new row. */
  ghost predicate ClaimWon(w: World, t: Ticket, now: int) {
    var r := Claim(w.ledger, t.client, Some(t.signal), t.symbol, t.side, t.quantity, t.price, now);
    r.Done? && r.value.1
  }

  /** Claiming, and if that wins marking, guarding, calling and recording. */
  ghost function SubmissionEvents(w: World, t: Ticket, gate: Gate, reply: Reply, now: int): seq<Event> {
    [ClaimIt(now)]
    + if ClaimWon(w, t, now) then [MarkIt(now)] + PlacingEvents(LetThrough(w, t, gate), gate, reply, now) else []
  }

  /** The broker is called for the ticket. */
  ghost predicate Reaches(w: World, t: Ticket, gate: Gate, now: int) {
    ClaimWon(w, t, now) && LetThrough(w, t, gate)
  }

  /** The ticket's own new row makes no difference to the guard. */
  lemma GuardIgnoresOwnRow(w: World, t: Ticket, now: int)
    requires w.trader == Vetted(t) && ClaimWon(w, t, now)
    ensures var v := Next(w, ClaimIt(now));
            && Enabled(w, ClaimIt(now)) && v.trader == Claimed(t) && Enabled(v, MarkIt(now))
            && var u := Next(v, MarkIt(now));
               GuardPasses(u, t) == GuardPasses(w, t)
  {
    hide OpenQuantity, Sensible, AfterSupervise, Unresolved, ExitOrders, Blank, StockCode;
    var u := Next(Next(w, ClaimIt(now)), MarkIt(now));
    assert t.client !in w.ledger.orders;
    MarkedOwnRow(w, t, now);
    if c :| c in w.ledger.orders && SeenByGuard(w.ledger.orders[c]) {
      assert u.ledger.orders[c] == w.ledger.orders[c];
    }
  }

  lemma MarkedOwnRow(w: World, t: Ticket, now: int)
    requires w.trader == Vetted(t) && ClaimWon(w, t, now)
    ensures var u := Next(Next(w, ClaimIt(now)), MarkIt(now));
            && u.review == w.review && u.blockEntries == w.blockEntries && u.ledger.positions == w.ledger.positions
            && t.client in u.ledger.orders && u.ledger.orders[t.client].status == Submitting
            && u.ledger.orders == w.ledger.orders[t.client := u.ledger.orders[t.client]]
  {
    hide OpenQuantity, Sensible, AfterSupervise, Unresolved, ExitOrders, StockCode, GuardPasses;
  }

  lemma SameGuard(w: World, t: Ticket, gate: Gate, now: int)
    requires w.trader == Vetted(t) && ClaimWon(w, t, now)
    ensures var v := Next(w, ClaimIt(now));
            Enabled(v, MarkIt(now)) && LetThrough(Next(v, MarkIt(now)), t, gate) == LetThrough(w, t, gate)
  {
    hide GuardPasses, Next, Enabled;
    GuardIgnoresOwnRow(w, t, now);
  }

  lemma ClaimLeaves(l: Ledger, t: Ticket, now: int)
    ensures var r := Claim(l, t.client, Some(t.signal), t.symbol, t.side, t.quantity, t.price, now);
            && (r.Done? && !r.value.1 ==> r.value.0 == l) && (t.client in l.orders ==> r.Raised? || !r.value.1)
  {
    hide Blank, StockCode;
  }

  /** Where the claim leads. */
  lemma ClaimRuns(w: World, t: Ticket, now: int)
    requires w.trader == Vetted(t)
    ensures Enabled(w, ClaimIt(now))
    ensures if ClaimWon(w, t, now)
            then Next(w, ClaimIt(now))
                 == w.(ledger := Claim(w.ledger, t.client, Some(t.signal), t.symbol, t.side, t.quantity, t.price, now).value.0, trader := Claimed(t))
            else Playable(w, [ClaimIt(now)] + []) && Played(w, [ClaimIt(now)] + []) == w.(trader := Idle)
  {
    hide GuardPasses, Sensible, AfterSupervise, Unresolved, ExitOrders, Claim;
    if !ClaimWon(w, t, now) {
      var v := Next(w, ClaimIt(now));
      assert Playable(v, []);
      OneMore(w, ClaimIt(now), v, []);
    }
  }

  lemma NotReached(w: World, t: Ticket, gate: Gate, now: int)
    requires !ClaimWon(w, t, now)
    ensures !Reaches(w, t, gate, now)
  {
  }

  /** The claim put in front of what follows a claim that was won. */
  lemma SubmissionRuns(w: World, t: Ticket, gate: Gate, reply: Reply, now: int, es: seq<Event>)
    requires w.trader == Vetted(t) && ClaimWon(w, t, now) && Enabled(w, ClaimIt(now))
    requires var v := Next(w, ClaimIt(now));
             && Enabled(v, MarkIt(now)) && Playable(v, es)
             && es == [MarkIt(now)] + PlacingEvents(LetThrough(Next(v, MarkIt(now)), t, gate), gate, reply, now)
    ensures var v, all := Next(w, ClaimIt(now)), [ClaimIt(now)] + es;
            && all == SubmissionEvents(w, t, gate, reply, now) && Playable(w, all) && Played(w, all) == Played(v, es)
            && LetThrough(Next(v, MarkIt(now)), t, gate) == Reaches(w, t, gate, now)
  {
    hide Next, Enabled, Playable, Played, Claim, LetThrough, PlacingEvents;
    SameGuard(w, t, gate, now);
    OneMore(w, ClaimIt(now), Next(w, ClaimIt(now)), es);
  }

  /** `_submit_with_ledger`: the steps it takes are the claim, and if that wins the
      mark, the guard, the broker call if let through, and the record. */
  method SubmitWithLedger(db: Database, broker: Broker, t: Ticket, gate: Gate, reply: Reply, now: int, ghost w: World)
    returns (submitted: bool, ghost es: seq<Event>)
    requires Mirrored(db, broker, w) && w.trader == Vetted(t) && FreshReply(w.broker, reply)
    modifies db`orders, broker
    ensures es == SubmissionEvents(w, t, gate, reply, now)
    ensures Playable(w, es) && Mirrored(db, broker, Played(w, es)) && Played(w, es).trader == Idle
    ensures broker.calls == old(broker.calls) + if Reaches(w, t, gate, now) then [t.client] else []
    ensures t.client in old(db.orders) ==> broker.calls == old(broker.calls) && db.orders == old(db.orders) && !submitted
    ensures submitted == (Reaches(w, t, gate, now) && reply.Accepts?)
  {
    hide GuardPasses, Unresolved, ExitOrders, PlacingEvents, FreshReply, Next, Enabled, Playable, Played, Claim, LetThrough, Reaches;
    ClaimRuns(w, t, now);
    ClaimLeaves(w.ledger, t, now);
    var claimed := db.ClaimOrderIntent(t.client, Some(t.signal), t.symbol, t.side, t.quantity, t.price, now);
    ghost var v := Next(w, ClaimIt(now));
    if claimed.Raised? || !claimed.value {
      NotReached(w, t, gate, now);
      return false, [ClaimIt(now)] + [];
    }
    submitted, es := SubmitClaimed(db, broker, t, gate, reply, now, v);
    SameGuard(w, t, gate, now);
    SubmissionRuns(w, t, gate, reply, now, es);
    es := [ClaimIt(now)] + es;
  }

  // --------------------------------------------------------------------- exits

  /** The first open position of a symbol and what becomes of it, as one of four. */
  datatype ExitCase = NothingOpen | Unsettled | UsedUp | NoPrice | Sells(ticket: Ticket)

  ghost function ExitCaseOf(w: World, symbol: string, client: string, price: Option<Price>): ExitCase {
    var i := FirstOpen(w.ledger.positions, symbol);
    if i == -1 then NothingOpen
    else
      var p := w.ledger.positions[i];
      if Unresolved(w.ledger.orders, symbol, Sell) then Unsettled
      else if |ExitOrders(w.ledger.orders, p.signal, symbol)| > w.maxRequotes then UsedUp
      else if price.None? || p.quantity == 0 then NoPrice
      else Sells(Ticket(client, p.signal, symbol, Sell, p.quantity, price.value))
  }

  /** Reading the position and vetting it, then the submission of the whole of it. */
  ghost function ExitEvents(w: World, symbol: string, client: string, price: Option<Price>, gate: Gate, reply: Reply, now: int): seq<Event> {
    match ExitCaseOf(w, symbol, client, price)
    case UsedUp => [ReadPosition(symbol)] + [VetExit(client, 1.0)]
    case Sells(t) => [ReadPosition(symbol)] + ([VetExit(client, t.price)] + SubmissionEvents(w, t, gate, reply, now))
    case _ => []
  }

  lemma ReadThenVetted(w: World, symbol: string, client: string, price: Price)
    requires w.trader == Idle && FirstOpen(w.ledger.positions, symbol) != -1
    requires w.ledger.positions[FirstOpen(w.ledger.positions, symbol)].quantity > 0 && !Unresolved(w.ledger.orders, symbol, Sell)
    ensures var v := Next(w, ReadPosition(symbol));
            var p := w.ledger.positions[FirstOpen(w.ledger.positions, symbol)];
            && Enabled(w, ReadPosition(symbol)) && Enabled(v, VetExit(client, price))
            && Next(v, VetExit(client, price))
               == (if |ExitOrders(w.ledger.orders, p.signal, symbol)| > w.maxRequotes then w.(trader := Idle, review := true, blockEntries := true)
                   else w.(trader := Vetted(Ticket(client, p.signal, symbol, Sell, p.quantity, price))))
  {
    hide GuardPasses, Sensible, AfterSupervise, Unresolved, ExitOrders;
  }

  /** `_maybe_exit_position` once a reason to exit holds: the first open position
      is sold whole, unless a SELL of the symbol is unresolved or the signal has
      used up its attempts. `price` is absent when no valid exit price was found. */
  method MaybeExitPosition(db: Database, broker: Broker, symbol: string, client: string, price: Option<Price>,
                           maxRequotes: nat, gate: Gate, reply: Reply, now: int, ghost w: World)
    returns (submitted: bool, ghost es: seq<Event>)
    requires Mirrored(db, broker, w) && w.trader == Idle && w.maxRequotes == maxRequotes && FreshReply(w.broker, reply)
    requires forall i :: 0 <= i < |db.positions| && db.positions[i].open ==> db.positions[i].quantity > 0
    modifies db`orders, db`review, db`blockEntries, broker
    ensures es == ExitEvents(w, symbol, client, price, gate, reply, now)
    ensures Playable(w, es) && Mirrored(db, broker, Played(w, es)) && Played(w, es).trader == Idle
    ensures match ExitCaseOf(w, symbol, client, price)
            case UsedUp => !submitted && db.review && db.blockEntries && db.orders == old(db.orders) && broker.calls == old(broker.calls)
            case Sells(t) =>
              && submitted == (Reaches(w, t, gate, now) && reply.Accepts?)
              && broker.calls == old(broker.calls) + (if Reaches(w, t, gate, now) then [client] else [])
              && db.review == old(db.review) && db.blockEntries == old(db.blockEntries)
            case _ => !submitted && Mirrored(db, broker, w)
  {
    hide GuardPasses, Sensible, AfterSupervise, Unresolved, ExitOrders, SubmissionEvents, Reaches, Next, Enabled, FreshReply, Playable, Played;
    NoSteps(w);
    submitted, es := false, [];
    var i := FirstOpen(db.positions, symbol);
    if i == -1 || Unresolved(db.orders, symbol, Sell) {
      return;
    }
    var p := db.positions[i];
    if |ExitOrders(db.orders, p.signal, symbol)| > maxRequotes {
      db.review, db.blockEntries := true, true;
      UsedUpRuns(w, symbol, client);
      es := [ReadPosition(symbol)] + [VetExit(client, 1.0)];
      return;
    }
    if price.None? {
      return;
    }
    var t := Ticket(client, p.signal, symbol, Sell, p.quantity, price.value);
    ghost var v := w.(trader := Vetted(t));
    submitted, es := SubmitWithLedger(db, broker, t, gate, reply, now, v);
    SameSubmission(w, v, t, gate, reply, now);
    ExitRuns(w, symbol, t, es);
    es := [ReadPosition(symbol)] + ([VetExit(client, price.value)] + es);
  }

  /** The read and the vetting put in front of the submission's steps. */
  lemma ExitRuns(w: World, symbol: string, t: Ticket, es: seq<Event>)
    requires w.trader == Idle && FirstOpen(w.ledger.positions, symbol) != -1 && !Unresolved(w.ledger.orders, symbol, Sell)
    requires var p := w.ledger.positions[FirstOpen(w.ledger.positions, symbol)];
             && p.quantity > 0 && |ExitOrders(w.ledger.orders, p.signal, symbol)| <= w.maxRequotes
             && t == Ticket(t.client, p.signal, symbol, Sell, p.quantity, t.price)
    requires Playable(w.(trader := Vetted(t)), es)
    ensures var all := [ReadPosition(symbol)] + ([VetExit(t.client, t.price)] + es);
            Playable(w, all) && Played(w, all) == Played(w.(trader := Vetted(t)), es)
  {
    hide Next, Enabled, Unresolved, ExitOrders, Playable, Played;
    ReadThenVetted(w, symbol, t.client, t.price);
    var v := Next(w, ReadPosition(symbol));
    OneMore(v, VetExit(t.client, t.price), w.(trader := Vetted(t)), es);
    OneMore(w, ReadPosition(symbol), v, [VetExit(t.client, t.price)] + es);
  }

  lemma UsedUpRuns(w: World, symbol: string, client: string)
    requires w.trader == Idle && FirstOpen(w.ledger.positions, symbol) != -1 && !Unresolved(w.ledger.orders, symbol, Sell)
    requires var p := w.ledger.positions[FirstOpen(w.ledger.positions, symbol)];
             p.quantity > 0 && |ExitOrders(w.ledger.orders, p.signal, symbol)| > w.maxRequotes
    ensures var es := [ReadPosition(symbol)] + [VetExit(client, 1.0)];
            Playable(w, es) && Played(w, es) == w.(trader := Idle, review := true, blockEntries := true)
  {
    hide Next, Enabled, Unresolved, ExitOrders, Playable, Played;
    ReadThenVetted(w, symbol, client, 1.0);
    var v := Next(w, ReadPosition(symbol));
    var stopped := Next(v, VetExit(client, 1.0));
    NoSteps(stopped);
    OneMore(v, VetExit(client, 1.0), stopped, []);
    assert [VetExit(client, 1.0)] + [] == [VetExit(client, 1.0)];
    OneMore(w, ReadPosition(symbol), v, [VetExit(client, 1.0)]);
  }

  lemma SameSubmission(w: World, v: World, t: Ticket, gate: Gate, reply: Reply, now: int)
    requires v == w.(trader := v.trader)
    ensures SubmissionEvents(v, t, gate, reply, now) == SubmissionEvents(w, t, gate, reply, now)
    ensures Reaches(v, t, gate, now) == Reaches(w, t, gate, now)
  {
    hide OpenQuantity;
  }
}
