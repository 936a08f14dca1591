/** `execution/exit_policy.py`: the life of a protective SELL and of the orders
    that replace it, as immutable values. */
module ExitPolicy {
  import opened Wrappers
  import opened Text
  import opened KrxMarketRules

  datatype State =
    | Submitted | Stale | CancelPending | Cancelled | Rejected | Filled | Unknown | OperatorReview | ReplacementIntentCreated

  /** `requested` is what the current order of the chain asked for. */
  datatype Lifecycle = Lifecycle(
    order: string, symbol: string, requested: int, state: State, filled: nat, remaining: nat, requotes: nat, lastIntentAt: Option<real>)
  {
    /** What construction checks; every transition constructs anew. */
    predicate Valid() {
      !Blank(order) && StockCode(symbol) && requested > 0 && filled + remaining == requested
    }
  }

  datatype Config = Config(
    slippageBps: real, maxRequotes: nat, interval: real, urgency: real, minQuantity: int, maxQuantity: int)
  {
    predicate Valid() {
      && 0.0 <= slippageBps < 10000.0 && interval > 0.0 && urgency >= 0.0
      && 0 < minQuantity <= maxQuantity
    }
  }

  datatype Quote = Quote(bid: Option<real>, ask: Option<real>, current: Option<real>)

  datatype SellPlan = SellPlan(price: int, tick: int, slippageBps: real, urgent: bool)

  datatype Intent = Intent(symbol: string, quantity: int, price: int, requotes: nat, replacementOf: string, urgent: bool)

  datatype Action =
    | Review | Wait | CancelRequired | Cancel | TerminalConfirmed | NothingLeft | CreateReplacement(intent: Intent)

  datatype Transition = Transition(lifecycle: Lifecycle, action: Action)

  /** How the broker's status text is read. */
  datatype Reading = Trouble | Working | Closed(state: State)

  predicate Terminal(s: State) {
    s.Cancelled? || s.Rejected? || s.Filled?
  }

  // ------------------------------------------------------------ transitions

  function MarkStale(l: Lifecycle): Transition {
    if l.state.Unknown? || l.state.OperatorReview? then Transition(l, Review)
    else if l.state.CancelPending? || Terminal(l.state) || l.state.Stale? then Transition(l, Wait)
    else Transition(l.(state := Stale), CancelRequired)
  }

  function MarkCancelPending(l: Lifecycle): Transition {
    if l.state.CancelPending? then Transition(l, Wait)
    else if !l.state.Stale? then Transition(l, Review)
    else Transition(l.(state := CancelPending), Cancel)
  }

  /** The two quantities, each defaulting to what the other leaves; the pair must
      add up to the request. */
  function Quantities(l: Lifecycle, filled: Option<int>, remaining: Option<int>): Option<(nat, nat)> {
    var f := if filled.Some? then filled.value else if remaining.Some? then l.requested - remaining.value else l.filled;
    var r := if remaining.Some? then remaining.value else if filled.Some? then l.requested - filled.value else l.remaining;
    if f < 0 || r < 0 || f + r != l.requested then None else Some((f, r))
  }

  function ObserveBrokerStatus(l: Lifecycle, reading: Reading, filled: Option<int>, remaining: Option<int>): Transition {
    var unknown := Transition(l.(state := Unknown), Review);
    match reading
    case Trouble => unknown
    case Working =>
      if filled.None? && remaining.None? then Transition(l, Wait)
      else
        var q := Quantities(l, filled, remaining);
        if q.None? then unknown else Transition(l.(filled := q.value.0, remaining := q.value.1), Wait)
    case Closed(state) =>
      if !Terminal(state) then unknown
      else
        var silent := filled.None? && remaining.None?;
        var q := if silent && state.Filled? then (if l.requested >= 0 then Some((l.requested as nat, 0 as nat)) else None)
                 else Quantities(l, filled, remaining);
        if q.None? || (state.Filled? && q.value.1 != 0) then unknown
        else Transition(l.(state := state, filled := q.value.0, remaining := q.value.1), TerminalConfirmed)
  }

  function CloseUrgent(c: Config, secondsToClose: Option<real>): Outcome<bool> {
    if secondsToClose.None? then Done(false)
    else if secondsToClose.value < 0.0 then Raised(InvalidArgument)
    else Done(secondsToClose.value <= c.urgency)
  }

  predicate IntervalElapsed(c: Config, last: Option<real>, now: Option<real>) {
    last.Some? && now.Some? && now.value - last.value >= c.interval
  }

  predicate Positive(x: Option<real>) {
    x.Some? ==> x.value > 0.0
  }

  /** Sell at the bid, rounded down to a tick, unless that gives away too much. */
  function PlanSellLimit(c: Config, q: Quote, secondsToClose: Option<real>): Outcome<SellPlan> {
    if q.bid.None? || !Positive(q.bid) || !Positive(q.current) || !Positive(q.ask) then Raised(InvalidArgument)
    else if q.ask.Some? && q.bid.value > q.ask.value then Raised(InvalidArgument)
    else
      var current := q.current.GetOr(q.bid.value);
      match Normalize(q.bid.value, Down)
      case Raised(e) => Raised(e)
      case Done(price) =>
        if price as real < current * (1.0 - c.slippageBps / 10000.0) then Raised(InvalidArgument)
        else
          var slipped := (current - price as real) / current * 10000.0;
          match CloseUrgent(c, secondsToClose)
          case Raised(e) => Raised(e)
          case Done(urgent) => Done(SellPlan(price, TickSize(q.bid.value), if slipped < 0.0 then 0.0 else slipped, urgent))
  }

  function CreateSellIntent(c: Config, symbol: string, quantity: int, q: Quote, requotes: nat, replacementOf: string,
                            secondsToClose: Option<real>): Outcome<Intent>
  {
    if !StockCode(symbol) || quantity < c.minQuantity || quantity > c.maxQuantity || requotes > c.maxRequotes then Raised(InvalidArgument)
    else
      match PlanSellLimit(c, q, secondsToClose)
      case Raised(e) => Raised(e)
      case Done(plan) => Done(Intent(symbol, quantity, plan.price, requotes, replacementOf, plan.urgent))
  }

  function Replacement(l: Lifecycle, c: Config, q: Quote, now: Option<real>, secondsToClose: Option<real>): Outcome<Transition> {
    if l.state.Unknown? || l.state.OperatorReview? then Done(Transition(l, Review))
    else if l.state.CancelPending? || l.state.Stale? || l.state.ReplacementIntentCreated? then Done(Transition(l, Wait))
    else if l.state.Filled? || l.remaining == 0 then Done(Transition(l, NothingLeft))
    else if !l.state.Cancelled? && !l.state.Rejected? then Done(Transition(l, Wait))
    else if l.requotes >= c.maxRequotes then Done(Transition(l, Review))
    else
      match CloseUrgent(c, secondsToClose)
      case Raised(e) => Raised(e)
      case Done(urgent) =>
        if !urgent && !IntervalElapsed(c, l.lastIntentAt, now) then Done(Transition(l, Wait))
        else
          match CreateSellIntent(c, l.symbol, l.remaining, q, l.requotes + 1, l.order, secondsToClose)
          case Raised(e) => Raised(e)
          case Done(intent) =>
            Done(Transition(l.(state := ReplacementIntentCreated, requested := l.remaining, filled := 0,
                               lastIntentAt := now, requotes := l.requotes + 1), CreateReplacement(intent)))
  }

  function InitialLifecycle(c: Config, order: string, symbol: string, quantity: int, now: Option<real>): Outcome<Lifecycle> {
    if quantity < c.minQuantity || quantity > c.maxQuantity || Blank(order) || !StockCode(symbol) || quantity <= 0 then Raised(InvalidArgument)
    else Done(Lifecycle(order, symbol, quantity, Submitted, 0, quantity, 0, now))
  }

  // -------------------------------------------------------------- sell price

  /** A planned price is the greatest valid one at or below the bid, crosses no
      ask, and gives away no more than the permitted slippage; a plan is refused
      for no other reason. */
  lemma SellPlanHolds(c: Config, q: Quote, secondsToClose: Option<real>)
    requires c.Valid()
    ensures PlanSellLimit(c, q, secondsToClose).Done? ==>
              var price := PlanSellLimit(c, q, secondsToClose).value.price;
              && q.bid.Some? && OnTick(price) && price as real <= q.bid.value && (q.ask.Some? ==> price as real <= q.ask.value)
              && (forall m :: OnTick(m) && m as real <= q.bid.value ==> m <= price)
              && price as real >= q.current.GetOr(q.bid.value) * (1.0 - c.slippageBps / 10000.0)
              && 0.0 <= PlanSellLimit(c, q, secondsToClose).value.slippageBps <= c.slippageBps
    ensures PlanSellLimit(c, q, secondsToClose).Done? <==>
              && q.bid.Some? && q.bid.value > 0.0 && Positive(q.current) && Positive(q.ask)
              && (q.ask.Some? ==> q.bid.value <= q.ask.value) && (secondsToClose.Some? ==> secondsToClose.value >= 0.0)
              && exists m :: OnTick(m) && m as real <= q.bid.value
                             && m as real >= q.current.GetOr(q.bid.value) * (1.0 - c.slippageBps / 10000.0)
  {
    hide Normalize, OnTick, TickSize;
    if q.bid.Some? && q.bid.value > 0.0 {
      BuyIsGreatest(q.bid.value);
      if PlanSellLimit(c, q, secondsToClose).Done? {
        SlippageBounds(q.current.GetOr(q.bid.value), Normalize(q.bid.value, Down).value as real, c.slippageBps);
      }
    }
  }

  lemma SlippageBounds(current: real, price: real, bps: real)
    requires current > 0.0 && bps >= 0.0 && price >= current * (1.0 - bps / 10000.0)
    ensures (current - price) / current * 10000.0 <= bps
  {
    var lost := current - price;
    assert lost <= current * (bps / 10000.0);
    assert current * (bps / 10000.0) / current == bps / 10000.0;
    assert (current * (bps / 10000.0) - lost) / current >= 0.0;
  }

  // ------------------------------------------------------- single transitions

  /** Quantities the broker may have meant: whole, adding up to the request, and
      as stated where stated. */
  ghost predicate Consistent(l: Lifecycle, filled: Option<int>, remaining: Option<int>, f: int, r: int) {
    f >= 0 && r >= 0 && f + r == l.requested && (filled.Some? ==> filled.value == f) && (remaining.Some? ==> remaining.value == r)
  }

  /** A recognised status with any quantity stated is adopted exactly when the
      quantities are consistent, and a FILLED one leaves nothing; then they are
      the lifecycle's, and otherwise the order is UNKNOWN and under review. */
  lemma ObservationAdopted(l: Lifecycle, reading: Reading, filled: Option<int>, remaining: Option<int>)
    requires l.Valid() && !reading.Trouble? && (reading.Closed? ==> Terminal(reading.state)) && (filled.Some? || remaining.Some?)
    ensures var t := ObserveBrokerStatus(l, reading, filled, remaining);
            if exists f, r :: Consistent(l, filled, remaining, f, r) && (reading == Closed(Filled) ==> r == 0)
            then && Consistent(l, filled, remaining, t.lifecycle.filled, t.lifecycle.remaining)
                 && t.lifecycle.state == (if reading.Closed? then reading.state else l.state)
                 && t.action == (if reading.Closed? then TerminalConfirmed else Wait)
            else t == Transition(l.(state := Unknown), Review)
  {
    hide Blank, StockCode;
    var q := Quantities(l, filled, remaining);
    if q.Some? {
      assert Consistent(l, filled, remaining, q.value.0, q.value.1);
    }
  }

  /** With no quantity stated, FILLED means all of it and the other terminal
      statuses what was known. */
  lemma SilentObservation(l: Lifecycle, state: State)
    requires l.Valid() && Terminal(state)
    ensures var t := ObserveBrokerStatus(l, Closed(state), None, None).lifecycle;
            t == l.(state := state, filled := if state == Filled then l.requested else l.filled,
                    remaining := if state == Filled then 0 else l.remaining)
    ensures ObserveBrokerStatus(l, Working, None, None) == Transition(l, Wait)
  {
    hide Blank, StockCode;
  }

  /** Cancelling takes two steps from a working order, happens once, and a
      terminal or unknown order is left alone by both. */
  lemma StaleThenCancelled(l: Lifecycle)
    ensures AtBroker(l.state) ==>
              var stale := MarkStale(l);
              && stale.action == CancelRequired && MarkCancelPending(stale.lifecycle) == Transition(l.(state := CancelPending), Cancel)
              && MarkCancelPending(MarkCancelPending(stale.lifecycle).lifecycle).action == Wait
    ensures Terminal(l.state) || l.state.Unknown? ==>
              MarkStale(l).lifecycle == l && MarkCancelPending(l).lifecycle == l && MarkCancelPending(l).action == Review
  {
  }

  /** A replacement is made exactly for a cancelled or rejected order with shares
      left, within the requote limit, once the interval has passed or the close is
      near, at a price the policy accepts; it asks for the shares left. */
  lemma ReplacementExactly(l: Lifecycle, c: Config, q: Quote, now: Option<real>, secondsToClose: Option<real>)
    requires l.Valid() && c.Valid()
    ensures var r := Replacement(l, c, q, now, secondsToClose);
            (r.Done? && IsReplacement(r.value.action)) <==>
              && (l.state == Cancelled || l.state == Rejected) && l.requotes < c.maxRequotes
              && c.minQuantity <= l.remaining <= c.maxQuantity && PlanSellLimit(c, q, secondsToClose).Done?
              && (IntervalElapsed(c, l.lastIntentAt, now) || (secondsToClose.Some? && secondsToClose.value <= c.urgency))
    ensures var r := Replacement(l, c, q, now, secondsToClose);
            r.Done? && IsReplacement(r.value.action) ==>
              var i, m := r.value.action.intent, r.value.lifecycle;
              && i.quantity == l.remaining == m.requested == m.remaining && m.filled == 0 && i.requotes == m.requotes == l.requotes + 1
              && i.price == PlanSellLimit(c, q, secondsToClose).value.price && i.symbol == l.symbol && i.replacementOf == l.order && m.lastIntentAt == now
    ensures var r := Replacement(l, c, q, now, secondsToClose);
            r.Done? && !IsReplacement(r.value.action) ==> r.value.lifecycle == l
  {
    hide Blank, Normalize, TickSize;
  }

  // --------------------------------------------------------------------- runs

  datatype Event =
    | StaleEvent
    | CancelEvent
    | StatusEvent(reading: Reading, filled: Option<int>, remaining: Option<int>)
    | ReplaceEvent(quote: Quote, now: Option<real>, secondsToClose: Option<real>)

  /** A refused event leaves the lifecycle as it is. */
  function Step(l: Lifecycle, c: Config, e: Event): Transition {
    match e
    case StaleEvent => MarkStale(l)
    case CancelEvent => MarkCancelPending(l)
    case StatusEvent(reading, filled, remaining) => ObserveBrokerStatus(l, reading, filled, remaining)
    case ReplaceEvent(quote, now, secondsToClose) =>
      var r := Replacement(l, c, quote, now, secondsToClose);
      if r.Done? then r.value else Transition(l, Wait)
  }

  /** A chain of orders from the lifecycle the policy makes for a first one. */
  ghost predicate Run(c: Config, ls: seq<Lifecycle>, es: seq<Event>) {
    && c.Valid() && |ls| == |es| + 1 && InitialLifecycle(c, ls[0].order, ls[0].symbol, ls[0].requested, ls[0].lastIntentAt) == Done(ls[0])
    && forall i :: 0 <= i < |es| ==> ls[i + 1] == Step(ls[i], c, es[i]).lifecycle
  }

  ghost predicate Acts(c: Config, ls: seq<Lifecycle>, es: seq<Event>, i: nat, a: Action -> bool)
    requires |ls| == |es| + 1 && i < |es|
  {
    a(Step(ls[i], c, es[i]).action)
  }

  /** How often an action was taken in the first `j` steps. */
  ghost function Count(c: Config, ls: seq<Lifecycle>, es: seq<Event>, j: nat, a: Action -> bool): nat
    requires |ls| == |es| + 1 && j <= |es|
  {
    if j == 0 then 0 else Count(c, ls, es, j - 1, a) + if Acts(c, ls, es, j - 1, a) then 1 else 0
  }

  /** Shares filled on the orders of the chain that were replaced. */
  ghost function ClosedFills(c: Config, ls: seq<Lifecycle>, es: seq<Event>, j: nat): int
    requires |ls| == |es| + 1 && j <= |es|
  {
    if j == 0 then 0
    else ClosedFills(c, ls, es, j - 1) + if Acts(c, ls, es, j - 1, IsReplacement) then ls[j - 1].filled else 0
  }

  predicate IsReplacement(a: Action) {
    a.CreateReplacement?
  }

  predicate IsCancel(a: Action) {
    a.Cancel?
  }

  predicate AtBroker(s: State) {
    s.Submitted? || s.ReplacementIntentCreated?
  }

  /** What one event can do to a chain. */
  ghost predicate StepFacts(l: Lifecycle, c: Config, t: Transition) {
    && t.lifecycle.Valid() && t.lifecycle.order == l.order && t.lifecycle.symbol == l.symbol
    && t.lifecycle.requotes == l.requotes + (if IsReplacement(t.action) then 1 else 0) && t.lifecycle.requotes <= c.maxRequotes
    && (if IsReplacement(t.action)
        then && (l.state.Cancelled? || l.state.Rejected?) && t.lifecycle.state.ReplacementIntentCreated?
             && t.lifecycle.requested == l.remaining == t.action.intent.quantity && t.lifecycle.filled == 0
        else && t.lifecycle.requested == l.requested
             && (AtBroker(t.lifecycle.state) ==> t.lifecycle.state == l.state)
             && (t.lifecycle.state.Stale? ==> l.state.Stale? || AtBroker(l.state)))
    && ((t.lifecycle.state.Cancelled? || t.lifecycle.state.Rejected?) && t.lifecycle.state != l.state ==> t.action == TerminalConfirmed)
    && (IsCancel(t.action) ==> l.state.Stale? && t.lifecycle.state.CancelPending?)
  }

  lemma StepKeeps(l: Lifecycle, c: Config, e: Event)
    requires l.Valid() && c.Valid() && l.requotes <= c.maxRequotes
    ensures StepFacts(l, c, Step(l, c, e))
  {
    hide Blank, StockCode, Normalize, TickSize, PlanSellLimit;
  }

  lemma {:induction false} RunKeeps(c: Config, ls: seq<Lifecycle>, es: seq<Event>, j: nat)
    requires Run(c, ls, es) && j < |ls|
    ensures ls[j].Valid() && ls[j].requotes <= c.maxRequotes
    ensures j < |es| ==> StepFacts(ls[j], c, Step(ls[j], c, es[j])) && ls[j + 1] == Step(ls[j], c, es[j]).lifecycle
  {
    hide Step, StepFacts;
    if j > 0 {
      RunKeeps(c, ls, es, j - 1);
      FactsValid(ls[j - 1], c, Step(ls[j - 1], c, es[j - 1]));
      assert ls[j - 1 + 1] == Step(ls[j - 1], c, es[j - 1]).lifecycle;
    }
    if j < |es| {
      StepKeeps(ls[j], c, es[j]);
    }
  }

  lemma FactsValid(l: Lifecycle, c: Config, t: Transition)
    requires StepFacts(l, c, t)
    ensures t.lifecycle.Valid() && t.lifecycle.requotes <= c.maxRequotes
  {
  }

  /** Conservation: what the closed orders of the chain filled, what the current
      one has filled and what remains make up the original quantity, and each
      replacement asks for exactly what was left. */
  lemma {:induction false} QuantityConserved(c: Config, ls: seq<Lifecycle>, es: seq<Event>, j: nat)
    requires Run(c, ls, es) && j < |ls|
    ensures ClosedFills(c, ls, es, j) + ls[j].filled + ls[j].remaining == ls[0].requested
    ensures 0 <= ClosedFills(c, ls, es, j) <= ls[0].requested
  {
    hide Step;
    RunKeeps(c, ls, es, j);
    if j > 0 {
      QuantityConserved(c, ls, es, j - 1);
      RunKeeps(c, ls, es, j - 1);
    }
  }

  /** Replacements number at most `maxRequotes`, and cancels at most one more. */
  lemma {:induction false} RequotesBounded(c: Config, ls: seq<Lifecycle>, es: seq<Event>, j: nat)
    requires Run(c, ls, es) && j < |ls|
    ensures Count(c, ls, es, j, IsReplacement) == ls[j].requotes <= c.maxRequotes
    ensures Count(c, ls, es, j, IsCancel)
            <= Count(c, ls, es, j, IsReplacement) + (if AtBroker(ls[j].state) || ls[j].state.Stale? then 0 else 1)
  {
    hide Step;
    RunKeeps(c, ls, es, j);
    if j > 0 {
      RequotesBounded(c, ls, es, j - 1);
      RunKeeps(c, ls, es, j - 1);
    }
  }

  /** A cancelled or rejected order was confirmed so by the broker, since `i`. */
  lemma {:induction false} ConfirmedSince(c: Config, ls: seq<Lifecycle>, es: seq<Event>, i: nat, j: nat) returns (k: nat)
    requires Run(c, ls, es) && i <= j < |ls| && !ls[i].state.Cancelled? && !ls[i].state.Rejected?
    requires ls[j].state.Cancelled? || ls[j].state.Rejected?
    ensures i <= k < j && Step(ls[k], c, es[k]).action == TerminalConfirmed
    ensures ls[k + 1].state.Cancelled? || ls[k + 1].state.Rejected?
    decreases j
  {
    hide Step;
    RunKeeps(c, ls, es, j - 1);
    if ls[j - 1].state.Cancelled? || ls[j - 1].state.Rejected? {
      if ls[j].state == ls[j - 1].state {
        k := ConfirmedSince(c, ls, es, i, j - 1);
      } else {
        k := j - 1;
      }
    } else {
      k := j - 1;
    }
  }

  /** Between two replacements, and before the first, the broker confirmed the
      order being replaced cancelled or rejected. */
  lemma ReplacedOnlyAfterConfirmation(c: Config, ls: seq<Lifecycle>, es: seq<Event>, i: nat, j: nat) returns (k: nat)
    requires Run(c, ls, es) && i <= j < |es| && Acts(c, ls, es, j, IsReplacement)
    requires i == 0 || Acts(c, ls, es, i - 1, IsReplacement)
    ensures i <= k < j && Step(ls[k], c, es[k]).action == TerminalConfirmed
    ensures ls[k + 1].state.Cancelled? || ls[k + 1].state.Rejected?
  {
    hide Step;
    RunKeeps(c, ls, es, j);
    if i > 0 {
      RunKeeps(c, ls, es, i - 1);
    }
    k := ConfirmedSince(c, ls, es, i, j);
  }
}
