/** `ai/reliable.py`: call and cost limits with reservations, and the retry loop
    of `ai/decision.py` that makes them. */
module UsageBudget {
  import opened Wrappers

  datatype Reservation = Reservation(token: nat, day: int, estimate: real)

  datatype Limits = Limits(processCalls: nat, dailyCalls: nat, processCost: real, dailyCost: real) {
    predicate Valid() {
      processCost >= 0.0 && dailyCost >= 0.0
    }
  }

  /** `reservations` is the insertion-ordered dictionary of outstanding
      reservations; `issued` stands for the supply of fresh tokens. */
  datatype Budget = Budget(
    day: int, processCalls: nat, dailyCalls: nat, processCost: real, dailyCost: real,
    processReserved: real, dailyReserved: real, reservations: seq<Reservation>, issued: nat)

  datatype Refusal = NegativeAmount | ProcessCalls | DailyCalls | ProcessCost | DailyCost

  datatype Answer<+T> = Granted(value: T) | Denied(why: Refusal)

  function Reserved(rs: seq<Reservation>): real {
    if rs == [] then 0.0 else Reserved(rs[..|rs| - 1]) + rs[|rs| - 1].estimate
  }

  function ReservedOn(rs: seq<Reservation>, day: int): real {
    if rs == [] then 0.0
    else ReservedOn(rs[..|rs| - 1], day) + if rs[|rs| - 1].day == day then rs[|rs| - 1].estimate else 0.0
  }

  function IndexOf(rs: seq<Reservation>, token: nat): (i: int)
    ensures -1 <= i < |rs|
    ensures i >= 0 ==> rs[i].token == token
    ensures i == -1 ==> forall k :: 0 <= k < |rs| ==> rs[k].token != token
  {
    if rs == [] then -1
    else if rs[|rs| - 1].token == token then |rs| - 1
    else IndexOf(rs[..|rs| - 1], token)
  }

  function Without(rs: seq<Reservation>, i: nat): seq<Reservation>
    requires i < |rs|
  {
    rs[..i] + rs[i + 1..]
  }

  // ------------------------------------------------------------ transactions

  function Rolled(b: Budget, today: int): Budget {
    if today == b.day then b
    else b.(day := today, dailyCalls := 0, dailyCost := 0.0, dailyReserved := ReservedOn(b.reservations, today))
  }

  function Reserve(b: Budget, l: Limits, estimate: real, today: int): (Budget, Answer<Reservation>) {
    if estimate < 0.0 then (b, Denied(NegativeAmount))
    else
      var c := Rolled(b, today);
      if c.processCalls >= l.processCalls then (c, Denied(ProcessCalls))
      else if c.dailyCalls >= l.dailyCalls then (c, Denied(DailyCalls))
      else if c.processCost + c.processReserved + estimate > l.processCost then (c, Denied(ProcessCost))
      else if c.dailyCost + c.dailyReserved + estimate > l.dailyCost then (c, Denied(DailyCost))
      else
        var r := Reservation(c.issued, c.day, estimate);
        (c.(reservations := c.reservations + [r], issued := c.issued + 1, processCalls := c.processCalls + 1,
            dailyCalls := c.dailyCalls + 1, processReserved := c.processReserved + estimate,
            dailyReserved := c.dailyReserved + estimate), Granted(r))
  }

  /** The budget without an outstanding reservation. */
  function Popped(b: Budget, i: nat): Budget
    requires i < |b.reservations|
  {
    var r := b.reservations[i];
    b.(reservations := Without(b.reservations, i), processReserved := b.processReserved - r.estimate,
       dailyReserved := if r.day == b.day then b.dailyReserved - r.estimate else b.dailyReserved)
  }

  /** Settling counts the cost even where it then complains of the limit. */
  function Settle(b: Budget, l: Limits, token: nat, actual: real): (Budget, Answer<()>) {
    if actual < 0.0 then (b, Denied(NegativeAmount))
    else
      var i := IndexOf(b.reservations, token);
      if i == -1 then (b, Granted(()))
      else
        var c := Popped(b, i);
        var today := b.reservations[i].day == b.day;
        var d := c.(processCost := c.processCost + actual, dailyCost := if today then c.dailyCost + actual else c.dailyCost);
        if d.processCost > l.processCost then (d, Denied(ProcessCost))
        else if d.dailyCost > l.dailyCost then (d, Denied(DailyCost))
        else (d, Granted(()))
  }

  function Cancel(b: Budget, token: nat): Budget {
    var i := IndexOf(b.reservations, token);
    if i == -1 then b else Popped(b, i)
  }

  // ----------------------------------------------------------------- the class

  class UsageBudget {
    const limits: Limits
    var day: int
    var processCalls: nat
    var dailyCalls: nat
    var processCost: real
    var dailyCost: real
    var processReserved: real
    var dailyReserved: real
    var reservations: seq<Reservation>
    var issued: nat

    function State(): Budget
      reads this
    {
      Budget(day, processCalls, dailyCalls, processCost, dailyCost, processReserved, dailyReserved, reservations, issued)
    }

    constructor (limits: Limits, today: int)
      requires limits.Valid()
      ensures State() == Budget(today, 0, 0, 0.0, 0.0, 0.0, 0.0, [], 0) && this.limits == limits
    {
      this.limits := limits;
      day, processCalls, dailyCalls := today, 0, 0;
      processCost, dailyCost, processReserved, dailyReserved := 0.0, 0.0, 0.0, 0.0;
      reservations, issued := [], 0;
    }

    method RollDay(today: int)
      modifies this`day, this`dailyCalls, this`dailyCost, this`dailyReserved
      ensures State() == Rolled(old(State()), today)
    {
      if today == day {
        return;
      }
      day, dailyCalls, dailyCost, dailyReserved := today, 0, 0.0, 0.0;
      var i := 0;
      while i < |reservations|
        invariant 0 <= i <= |reservations|
        invariant State() == Rolled(old(State()), today).(dailyReserved := ReservedOn(reservations[..i], today))
      {
        assert reservations[..i + 1][..i] == reservations[..i];
        if reservations[i].day == today {
          dailyReserved := dailyReserved + reservations[i].estimate;
        }
        i := i + 1;
      }
      assert reservations[..|reservations|] == reservations;
    }

    method ReserveCall(estimate: real, today: int) returns (r: Answer<Reservation>)
      modifies this
      ensures (State(), r) == Reserve(old(State()), limits, estimate, today)
    {
      if estimate < 0.0 {
        return Denied(NegativeAmount);
      }
      RollDay(today);
      if processCalls >= limits.processCalls {
        return Denied(ProcessCalls);
      }
      if dailyCalls >= limits.dailyCalls {
        return Denied(DailyCalls);
      }
      if processCost + processReserved + estimate > limits.processCost {
        return Denied(ProcessCost);
      }
      if dailyCost + dailyReserved + estimate > limits.dailyCost {
        return Denied(DailyCost);
      }
      var reservation := Reservation(issued, day, estimate);
      issued := issued + 1;
      reservations := reservations + [reservation];
      processCalls, dailyCalls := processCalls + 1, dailyCalls + 1;
      processReserved, dailyReserved := processReserved + estimate, dailyReserved + estimate;
      return Granted(reservation);
    }

    method SettleCall(reservation: Reservation, actual: real) returns (r: Answer<()>)
      modifies this
      ensures (State(), r) == Settle(old(State()), limits, reservation.token, actual)
    {
      if actual < 0.0 {
        return Denied(NegativeAmount);
      }
      var i := IndexOf(reservations, reservation.token);
      if i == -1 {
        return Granted(());
      }
      var current := reservations[i];
      reservations := reservations[..i] + reservations[i + 1..];
      processReserved := processReserved - current.estimate;
      if current.day == day {
        dailyReserved := dailyReserved - current.estimate;
      }
      processCost := processCost + actual;
      if current.day == day {
        dailyCost := dailyCost + actual;
      }
      if processCost > limits.processCost {
        return Denied(ProcessCost);
      }
      if dailyCost > limits.dailyCost {
        return Denied(DailyCost);
      }
      return Granted(());
    }

    method CancelCall(reservation: Reservation)
      modifies this
      ensures State() == Cancel(old(State()), reservation.token)
    {
      var i := IndexOf(reservations, reservation.token);
      if i == -1 {
        return;
      }
      var current := reservations[i];
      reservations := reservations[..i] + reservations[i + 1..];
      processReserved := processReserved - current.estimate;
      if current.day == day {
        dailyReserved := dailyReserved - current.estimate;
      }
    }
  }

  // ---------------------------------------------------------------------- sums

  lemma {:induction false} ReservedAppend(rs: seq<Reservation>, qs: seq<Reservation>, day: int)
    ensures Reserved(rs + qs) == Reserved(rs) + Reserved(qs)
    ensures ReservedOn(rs + qs, day) == ReservedOn(rs, day) + ReservedOn(qs, day)
  {
    if qs == [] {
      assert rs + qs == rs;
    } else {
      ReservedAppend(rs, qs[..|qs| - 1], day);
      assert (rs + qs)[..|rs + qs| - 1] == rs + qs[..|qs| - 1];
    }
  }

  lemma ReservedOne(r: Reservation, day: int)
    ensures Reserved([r]) == r.estimate && ReservedOn([r], day) == if r.day == day then r.estimate else 0.0
  {
    assert [r][..0] == [];
  }

  lemma ReservedWithout(rs: seq<Reservation>, i: nat, day: int)
    requires i < |rs|
    ensures Reserved(Without(rs, i)) == Reserved(rs) - rs[i].estimate
    ensures ReservedOn(Without(rs, i), day) == ReservedOn(rs, day) - if rs[i].day == day then rs[i].estimate else 0.0
  {
    assert rs == rs[..i] + ([rs[i]] + rs[i + 1..]);
    ReservedAppend(rs[..i], [rs[i]] + rs[i + 1..], day);
    ReservedAppend([rs[i]], rs[i + 1..], day);
    ReservedAppend(rs[..i], rs[i + 1..], day);
    ReservedOne(rs[i], day);
  }

  lemma {:induction false} NothingOn(rs: seq<Reservation>, day: int)
    requires forall i :: 0 <= i < |rs| ==> rs[i].day != day
    ensures ReservedOn(rs, day) == 0.0
  {
    if rs != [] {
      NothingOn(rs[..|rs| - 1], day);
    }
  }

  // ---------------------------------------------------------------------- runs

  datatype Event =
    | ReserveEvent(estimate: real, today: int)
    | SettleEvent(token: nat, actual: real)
    | CancelEvent(token: nat)
    | SnapshotEvent(today: int)

  function Next(b: Budget, l: Limits, e: Event): Budget {
    match e
    case ReserveEvent(estimate, today) => Reserve(b, l, estimate, today).0
    case SettleEvent(token, actual) => Settle(b, l, token, actual).0
    case CancelEvent(token) => Cancel(b, token)
    case SnapshotEvent(today) => Rolled(b, today)
  }

  /** Any interleaving of callers; the clock's day does not run back. */
  ghost predicate Run(bs: seq<Budget>, l: Limits, es: seq<Event>) {
    && l.Valid() && |bs| == |es| + 1
    && bs[0] == Budget(bs[0].day, 0, 0, 0.0, 0.0, 0.0, 0.0, [], 0)
    && (forall i :: 0 <= i < |es| ==> bs[i + 1] == Next(bs[i], l, es[i]))
    && (forall i :: 0 <= i < |es| && (es[i].ReserveEvent? || es[i].SnapshotEvent?) ==> bs[i].day <= es[i].today)
  }

  /** What a settlement cost beyond its estimate; zero if nothing was settled. */
  function Overshoot(b: Budget, e: Event): real {
    if !e.SettleEvent? || e.actual < 0.0 then 0.0
    else
      var i := IndexOf(b.reservations, e.token);
      if i == -1 || e.actual <= b.reservations[i].estimate then 0.0 else e.actual - b.reservations[i].estimate
  }

  ghost function TotalOvershoot(bs: seq<Budget>, es: seq<Event>, j: nat): real
    requires j <= |es| && |bs| == |es| + 1
  {
    if j == 0 then 0.0 else TotalOvershoot(bs, es, j - 1) + Overshoot(bs[j - 1], es[j - 1])
  }

  /** The same over the settlements made while the budget's day was `day`. */
  ghost function DayOvershoot(bs: seq<Budget>, es: seq<Event>, j: nat, day: int): real
    requires j <= |es| && |bs| == |es| + 1
  {
    if j == 0 then 0.0
    else DayOvershoot(bs, es, j - 1, day) + if bs[j - 1].day == day then Overshoot(bs[j - 1], es[j - 1]) else 0.0
  }

  /** Calls granted so far, and those granted on one day. */
  ghost function Grants(bs: seq<Budget>, l: Limits, es: seq<Event>, j: nat): nat
    requires j <= |es| && |bs| == |es| + 1
  {
    if j == 0 then 0
    else Grants(bs, l, es, j - 1) + if GrantedBy(bs[j - 1], l, es[j - 1]) then 1 else 0
  }

  ghost function GrantsOn(bs: seq<Budget>, l: Limits, es: seq<Event>, j: nat, day: int): nat
    requires j <= |es| && |bs| == |es| + 1
  {
    if j == 0 then 0
    else GrantsOn(bs, l, es, j - 1, day)
         + if GrantedBy(bs[j - 1], l, es[j - 1]) && es[j - 1].today == day then 1 else 0
  }

  predicate GrantedBy(b: Budget, l: Limits, e: Event) {
    e.ReserveEvent? && Reserve(b, l, e.estimate, e.today).1.Granted?
  }

  ghost predicate Accounted(b: Budget) {
    && b.processReserved == Reserved(b.reservations) && b.dailyReserved == ReservedOn(b.reservations, b.day)
    && (forall i :: 0 <= i < |b.reservations| ==>
          b.reservations[i].estimate >= 0.0 && b.reservations[i].token < b.issued && b.reservations[i].day <= b.day)
    && (forall i, k :: 0 <= i < k < |b.reservations| ==> b.reservations[i].token != b.reservations[k].token)
  }

  lemma PoppedAccounted(b: Budget, i: nat)
    requires Accounted(b) && i < |b.reservations|
    ensures Accounted(Popped(b, i))
  {
    ReservedWithout(b.reservations, i, b.day);
  }

  lemma RolledAccounted(b: Budget, today: int)
    requires Accounted(b) && b.day <= today
    ensures Accounted(Rolled(b, today)) && (b.day < today ==> Rolled(b, today).dailyReserved == 0.0)
  {
    if b.day < today {
      NothingOn(b.reservations, today);
    }
  }

  lemma StepAccounted(b: Budget, l: Limits, e: Event)
    requires Accounted(b) && (e.ReserveEvent? || e.SnapshotEvent? ==> b.day <= e.today)
    ensures Accounted(Next(b, l, e))
  {
    hide Accounted;
    match e
    case ReserveEvent(estimate, today) =>
      RolledAccounted(b, today);
      if Reserve(b, l, estimate, today).1.Granted? {
        GrantAccounted(Rolled(b, today), estimate, Next(b, l, e));
      }
    case SettleEvent(token, actual) =>
      var i := IndexOf(b.reservations, token);
      if i != -1 && actual >= 0.0 {
        PoppedAccounted(b, i);
        SpentAccounted(Popped(b, i), Next(b, l, e));
      }
    case CancelEvent(token) =>
      var i := IndexOf(b.reservations, token);
      if i != -1 {
        PoppedAccounted(b, i);
      }
    case SnapshotEvent(today) =>
      RolledAccounted(b, today);
  }

  lemma GrantAccounted(c: Budget, estimate: real, d: Budget)
    requires Accounted(c) && estimate >= 0.0
    requires d.reservations == c.reservations + [Reservation(c.issued, c.day, estimate)] && d.issued == c.issued + 1 && d.day == c.day
    requires d.processReserved == c.processReserved + estimate && d.dailyReserved == c.dailyReserved + estimate
    ensures Accounted(d)
  {
    hide Reserved, ReservedOn;
    var r := Reservation(c.issued, c.day, estimate);
    ReservedAppend(c.reservations, [r], c.day);
    ReservedOne(r, c.day);
  }

  lemma SpentAccounted(c: Budget, d: Budget)
    requires Accounted(c) && (d == c || d == c.(processCost := d.processCost, dailyCost := d.dailyCost))
    ensures Accounted(d)
  {
  }

  /** How the totals and counters move in one step. */
  lemma StepTotals(b: Budget, l: Limits, e: Event)
    requires Accounted(b) && l.Valid() && (e.ReserveEvent? || e.SnapshotEvent? ==> b.day <= e.today)
    ensures var c := Next(b, l, e);
            && c.processCalls == b.processCalls + (if GrantedBy(b, l, e) then 1 else 0)
            && (GrantedBy(b, l, e) ==> c.processCalls <= l.processCalls && c.dailyCalls <= l.dailyCalls && c.day == e.today)
            && b.day <= c.day
            && c.dailyCalls == (if c.day == b.day then b.dailyCalls else 0) + (if GrantedBy(b, l, e) then 1 else 0)
            && (c.processCost + c.processReserved <= b.processCost + b.processReserved + Overshoot(b, e)
                || c.processCost + c.processReserved <= l.processCost)
            && (c.dailyCost + c.dailyReserved <= (if c.day == b.day then b.dailyCost + b.dailyReserved + Overshoot(b, e) else 0.0)
                || c.dailyCost + c.dailyReserved <= l.dailyCost)
            && Overshoot(b, e) >= 0.0
  {
    hide Reserved, ReservedOn;
    match e
    case ReserveEvent(_, today) =>
      RolledAccounted(b, today);
    case SnapshotEvent(today) =>
      RolledAccounted(b, today);
    case _ =>
  }

  /** In every state of every run: what is reserved is the sum of the outstanding
      estimates, and of those dated today; the calls made are within their
      limits, also day by day; and cost plus reservations exceed a limit by no
      more than settlements exceeded their estimates. */
  lemma {:induction false} BudgetHolds(bs: seq<Budget>, l: Limits, es: seq<Event>, j: nat)
    requires Run(bs, l, es) && j < |bs|
    ensures Accounted(bs[j])
    ensures bs[j].processCalls == Grants(bs, l, es, j) <= l.processCalls
    ensures bs[j].dailyCalls == GrantsOn(bs, l, es, j, bs[j].day)
    ensures forall d :: GrantsOn(bs, l, es, j, d) <= (if d > bs[j].day then 0 else l.dailyCalls)
    ensures bs[j].processCost + bs[j].processReserved <= l.processCost + TotalOvershoot(bs, es, j)
    ensures bs[j].dailyCost + bs[j].dailyReserved <= l.dailyCost + DayOvershoot(bs, es, j, bs[j].day)
    ensures forall d :: 0.0 <= DayOvershoot(bs, es, j, d) && TotalOvershoot(bs, es, j) >= 0.0
  {
    hide Next, Accounted, Overshoot, GrantedBy;
    if j == 0 {
      AtStart(bs[0]);
    } else {
      BudgetHolds(bs, l, es, j - 1);
      var b, e := bs[j - 1], es[j - 1];
      assert bs[j - 1 + 1] == Next(b, l, e);
      StepAccounted(b, l, e);
      StepTotals(b, l, e);
    }
  }

  lemma AtStart(b: Budget)
    requires b == Budget(b.day, 0, 0, 0.0, 0.0, 0.0, 0.0, [], 0)
    ensures Accounted(b)
  {
  }

  // ------------------------------------------------------------- costs booked

  /** The reservation a settlement is for, if it is outstanding and the amount is one. */
  ghost predicate Settles(b: Budget, e: Event, r: Reservation) {
    e.SettleEvent? && e.actual >= 0.0 && r in b.reservations && r.token == e.token
  }

  ghost predicate SettlesAny(b: Budget, e: Event) {
    exists r :: Settles(b, e, r)
  }

  ghost predicate SettlesOn(b: Budget, e: Event, day: int) {
    exists r :: Settles(b, e, r) && r.day == day
  }

  /** The amounts settled so far, and those for reservations of one day. */
  ghost function SettledCost(bs: seq<Budget>, es: seq<Event>, j: nat): real
    requires j <= |es| && |bs| == |es| + 1
  {
    if j == 0 then 0.0
    else SettledCost(bs, es, j - 1) + if SettlesAny(bs[j - 1], es[j - 1]) then es[j - 1].actual else 0.0
  }

  ghost function SettledCostOn(bs: seq<Budget>, es: seq<Event>, j: nat, day: int): real
    requires j <= |es| && |bs| == |es| + 1
  {
    if j == 0 then 0.0
    else SettledCostOn(bs, es, j - 1, day)
         + if SettlesOn(bs[j - 1], es[j - 1], day) then es[j - 1].actual else 0.0
  }

  lemma OneSettles(b: Budget, e: Event)
    requires Accounted(b) && e.SettleEvent? && e.actual >= 0.0
    ensures var i := IndexOf(b.reservations, e.token);
            if i == -1 then !exists r :: Settles(b, e, r)
            else Settles(b, e, b.reservations[i]) && forall r :: Settles(b, e, r) ==> r == b.reservations[i]
  {
    var i := IndexOf(b.reservations, e.token);
    forall r | Settles(b, e, r)
      ensures i != -1 && r == b.reservations[i]
    {
      var k :| 0 <= k < |b.reservations| && b.reservations[k] == r;
    }
  }

  lemma StepBooks(b: Budget, l: Limits, e: Event)
    requires Accounted(b) && (e.ReserveEvent? || e.SnapshotEvent? ==> b.day <= e.today)
    ensures var c := Next(b, l, e);
            && c.processCost == b.processCost + (if SettlesAny(b, e) then e.actual else 0.0)
            && b.day <= c.day
            && c.dailyCost == (if c.day == b.day then b.dailyCost else 0.0)
                              + (if SettlesOn(b, e, c.day) then e.actual else 0.0)
            && forall day :: day > b.day ==> !SettlesOn(b, e, day)
  {
    hide Reserved, ReservedOn;
    if e.SettleEvent? && e.actual >= 0.0 {
      OneSettles(b, e);
    }
  }

  /** In every state of every run the process cost is the sum of the amounts
      settled, and the daily cost of those settled for the day's reservations. */
  lemma {:induction false} CostsAreSettled(bs: seq<Budget>, l: Limits, es: seq<Event>, j: nat)
    requires Run(bs, l, es) && j < |bs|
    ensures bs[j].processCost == SettledCost(bs, es, j) && bs[j].dailyCost == SettledCostOn(bs, es, j, bs[j].day)
    ensures forall day :: day > bs[j].day ==> SettledCostOn(bs, es, j, day) == 0.0
  {
    hide Next, Accounted, SettlesAny, SettlesOn, Grants, GrantsOn, TotalOvershoot, DayOvershoot;
    if j > 0 {
      CostsAreSettled(bs, l, es, j - 1);
      BudgetHolds(bs, l, es, j - 1);
      assert bs[j - 1 + 1] == Next(bs[j - 1], l, es[j - 1]);
      StepBooks(bs[j - 1], l, es[j - 1]);
    }
  }

  /** In every state of every run a reservation is granted if and only if one more
      call stays within both call limits, and what was settled, what is reserved and
      the estimate stay within both cost limits, the daily ones counting the day
      it is asked for. */
  lemma GrantedIff(bs: seq<Budget>, l: Limits, es: seq<Event>, j: nat)
    requires Run(bs, l, es) && j < |es| && es[j].ReserveEvent?
    ensures var (reserved, estimate, today) := (bs[j].reservations, es[j].estimate, es[j].today);
            GrantedBy(bs[j], l, es[j]) <==>
              && estimate >= 0.0
              && Grants(bs, l, es, j) + 1 <= l.processCalls && GrantsOn(bs, l, es, j, today) + 1 <= l.dailyCalls
              && SettledCost(bs, es, j) + Reserved(reserved) + estimate <= l.processCost
              && SettledCostOn(bs, es, j, today) + ReservedOn(reserved, today) + estimate <= l.dailyCost
  {
    hide Grants, GrantsOn, SettledCost, SettledCostOn, TotalOvershoot, DayOvershoot, Reserved, ReservedOn;
    BudgetHolds(bs, l, es, j);
    CostsAreSettled(bs, l, es, j);
  }

  // ------------------------------------------------------------ the retry loop

  /** What one attempt meets after its reservation, as the handlers tell it apart.
      `cost` is the usage the answer reports. */
  datatype Attempt =
    | TimesOut
    | Transient                                   // HTTP 429 or 5xx
    | ClientError                                 // any other 4xx
    | OtherFailure                                // any other exception before settling
    | Malformed                                   // no usable payload or usage
    | Answered(cost: real, usable: bool)

  datatype Verdict = Decided | Fallback | TransportError | RequestError | ResponseError | OtherError

  /** Outstanding tokens were issued before. */
  ghost predicate Issued(b: Budget) {
    forall i :: 0 <= i < |b.reservations| ==> b.reservations[i].token < b.issued
  }

  /** The attempt left no reservation behind, and made at most one call. */
  ghost predicate Closed(before: Budget, after: Budget) {
    after.reservations == before.reservations && after.processCalls <= before.processCalls + 1 && before.issued <= after.issued
  }

  lemma CancelClosesLast(b: Budget, c: Budget, r: Reservation)
    requires c.reservations == b.reservations + [r]
    ensures Cancel(c, r.token).reservations == b.reservations && Cancel(c, r.token).processCalls == c.processCalls
    ensures Cancel(c, r.token).issued == c.issued
  {
    assert IndexOf(c.reservations, r.token) == |b.reservations|;
    assert Without(c.reservations, |b.reservations|) == b.reservations;
  }

  lemma SettleClosesLast(b: Budget, c: Budget, l: Limits, r: Reservation, actual: real)
    requires c.reservations == b.reservations + [r] && actual >= 0.0
    ensures Settle(c, l, r.token, actual).0.reservations == b.reservations && Settle(c, l, r.token, actual).0.processCalls == c.processCalls
    ensures Settle(c, l, r.token, actual).0.issued == c.issued
  {
    assert IndexOf(c.reservations, r.token) == |b.reservations|;
    assert Without(c.reservations, |b.reservations|) == b.reservations;
  }

  lemma CancelUnknown(b: Budget, token: nat)
    requires forall i :: 0 <= i < |b.reservations| ==> b.reservations[i].token != token
    ensures Cancel(b, token) == b
  {
  }

  /** A granted reservation is appended under a token not used before. */
  lemma ReserveFacts(b: Budget, l: Limits, estimate: real, today: int)
    ensures var (c, r) := Reserve(b, l, estimate, today);
            if r.Granted? then r.value.token == b.issued && c.issued == b.issued + 1 && c.processCalls == b.processCalls + 1
                               && c.reservations == b.reservations + [r.value]
            else c.issued == b.issued && c.reservations == b.reservations && c.processCalls == b.processCalls
  {
    hide ReservedOn;
  }

  /** A settlement refuses an amount, leaving the budget as it is, exactly when it is negative. */
  lemma SettleRefuses(b: Budget, l: Limits, token: nat, actual: real)
    ensures Settle(b, l, token, actual) == (b, Denied(NegativeAmount)) <==> actual < 0.0
    ensures var r := Settle(b, l, token, actual).1; r.Denied? && r.why.NegativeAmount? <==> actual < 0.0
  {
  }

  /** The calls one attempt makes on a budget nobody else touches meanwhile. */
  function Attempted(b: Budget, l: Limits, estimate: real, today: int, attempt: Attempt): Budget {
    var (c, r) := Reserve(b, l, estimate, today);
    if r.Denied? then c
    else
      var token := r.value.token;
      match attempt
      case Answered(cost, _) =>
        var (d, s) := Settle(c, l, token, cost);
        if s.Denied? then Cancel(d, token) else d
      case ClientError => Cancel(Cancel(c, token), token)
      case _ => Cancel(c, token)
  }

  /** A call was made for the attempt. */
  predicate CallMade(b: Budget, l: Limits, estimate: real, today: int) {
    Reserve(b, l, estimate, today).1.Granted?
  }

  /** The attempt's call was made and may be repeated. */
  predicate Repeatable(b: Budget, l: Limits, estimate: real, today: int, attempt: Attempt) {
    CallMade(b, l, estimate, today) && (attempt.TimesOut? || attempt.Transient?)
  }

  /** The refusal the attempt ends with, if any: of its reservation, or of its settlement. */
  function RefusalOf(b: Budget, l: Limits, estimate: real, today: int, attempt: Attempt): Option<Refusal> {
    var (c, r) := Reserve(b, l, estimate, today);
    if r.Denied? then Some(r.why)
    else if !attempt.Answered? then None
    else
      var s := Settle(c, l, r.value.token, attempt.cost).1;
      if s.Denied? then Some(s.why) else None
  }

  /** What an attempt that is not repeated ends in. */
  function VerdictOf(b: Budget, l: Limits, estimate: real, today: int, attempt: Attempt): Verdict {
    var refusal := RefusalOf(b, l, estimate, today, attempt);
    if refusal.Some? then if refusal.value.NegativeAmount? then ResponseError else Fallback
    else
      match attempt
      case TimesOut => TransportError
      case Transient => TransportError
      case ClientError => RequestError
      case OtherFailure => OtherError
      case Malformed => ResponseError
      case Answered(_, usable) => if usable then Decided else ResponseError
  }

  /** A decision needs a call, an answer whose cost is within the limits, and a
      usable one; the transport error is that of an attempt that could be repeated. */
  lemma VerdictMeans(b: Budget, l: Limits, estimate: real, today: int, attempt: Attempt)
    ensures VerdictOf(b, l, estimate, today, attempt).Decided? <==>
              CallMade(b, l, estimate, today) && attempt.Answered? && attempt.usable
              && RefusalOf(b, l, estimate, today, attempt).None?
    ensures VerdictOf(b, l, estimate, today, attempt).TransportError? <==> Repeatable(b, l, estimate, today, attempt)
  {
    hide Reserve, Settle;
  }

  /** One pass through the loop body; the flag asks for another attempt. */
  method Try(budget: UsageBudget, estimate: real, today: int, attempt: Attempt, last: bool)
    returns (verdict: Verdict, again: bool)
    requires Issued(budget.State())
    modifies budget
    ensures Closed(old(budget.State()), budget.State())
    ensures budget.State() == Attempted(old(budget.State()), budget.limits, estimate, today, attempt)
    ensures !again && verdict.TransportError? ==> last
    ensures again <==> !last && Repeatable(old(budget.State()), budget.limits, estimate, today, attempt)
    ensures verdict == VerdictOf(old(budget.State()), budget.limits, estimate, today, attempt)
    ensures budget.processCalls
            == old(budget.processCalls) + if CallMade(old(budget.State()), budget.limits, estimate, today) then 1 else 0
  {
    hide Issued, Reserve, Settle, Cancel;
    ghost var before := budget.State();
    ReserveFacts(before, budget.limits, estimate, today);
    again := false;
    var reserved := budget.ReserveCall(estimate, today);
    if reserved.Denied? {
      verdict := if reserved.why.NegativeAmount? then ResponseError else Fallback;
      return;
    }
    ghost var made := budget.State();
    var reservation := reserved.value;
    match attempt {
      case Answered(cost, usable) =>
        SettleRefuses(made, budget.limits, reservation.token, cost);
        var settled := budget.SettleCall(reservation, cost);
        if settled.Denied? && settled.why.NegativeAmount? {
          CancelClosesLast(before, made, reservation);
          budget.CancelCall(reservation);
          verdict := ResponseError;
          return;
        }
        SettleClosesLast(before, made, budget.limits, reservation, cost);
        if settled.Denied? {
          FreshToken(before, reservation.token);
          CancelUnknown(budget.State(), reservation.token);
          budget.CancelCall(reservation);
          verdict := Fallback;
        } else {
          verdict := if usable then Decided else ResponseError;
        }
      case TimesOut =>
        CancelClosesLast(before, made, reservation);
        budget.CancelCall(reservation);
        verdict, again := TransportError, !last;
      case Transient =>
        CancelClosesLast(before, made, reservation);
        budget.CancelCall(reservation);
        verdict, again := TransportError, !last;
      case ClientError =>
        CancelClosesLast(before, made, reservation);
        budget.CancelCall(reservation);
        FreshToken(before, reservation.token);
        CancelUnknown(budget.State(), reservation.token);
        budget.CancelCall(reservation);
        verdict := RequestError;
      case Malformed =>
        CancelClosesLast(before, made, reservation);
        budget.CancelCall(reservation);
        verdict := ResponseError;
      case OtherFailure =>
        CancelClosesLast(before, made, reservation);
        budget.CancelCall(reservation);
        verdict := OtherError;
    }
  }

  /** A token about to be issued is not outstanding. */
  lemma FreshToken(b: Budget, token: nat)
    requires Issued(b) && token >= b.issued
    ensures forall i :: 0 <= i < |b.reservations| ==> b.reservations[i].token != token
  {
  }

  /** The budget after the first `n` attempts, made one after the other. */
  function AfterAttempts(b: Budget, l: Limits, estimate: real, meets: nat -> (Attempt, int), n: nat): Budget {
    if n == 0 then b
    else Attempted(AfterAttempts(b, l, estimate, meets, n - 1), l, estimate, meets(n - 1).1, meets(n - 1).0)
  }

  /** The attempt numbered `k` from zero may be repeated. */
  predicate AsksAgain(b: Budget, l: Limits, estimate: real, meets: nat -> (Attempt, int), k: nat) {
    Repeatable(AfterAttempts(b, l, estimate, meets, k), l, estimate, meets(k).1, meets(k).0)
  }

  /** `decide`: the attempts go on while they may be repeated, at most
      `maxRetries + 1` of them, and the last one gives the verdict. Each makes one
      call, but for a last one that is refused, and however it ends no reservation
      of its own is outstanding. `meets` says what each attempt meets and on which
      day it is made. */
  method Decide(budget: UsageBudget, estimate: real, maxRetries: nat, meets: nat -> (Attempt, int)) returns (verdict: Verdict, ghost attempts: nat)
    requires Issued(budget.State())
    modifies budget
    ensures budget.reservations == old(budget.reservations)
    ensures budget.State() == AfterAttempts(old(budget.State()), budget.limits, estimate, meets, attempts)
    ensures 1 <= attempts <= maxRetries + 1
    ensures forall k: nat :: k < attempts - 1 ==> AsksAgain(old(budget.State()), budget.limits, estimate, meets, k)
    ensures attempts == maxRetries + 1 || !AsksAgain(old(budget.State()), budget.limits, estimate, meets, attempts - 1)
    ensures verdict == VerdictOf(AfterAttempts(old(budget.State()), budget.limits, estimate, meets, attempts - 1), budget.limits,
                                 estimate, meets(attempts - 1).1, meets(attempts - 1).0)
    ensures var before := AfterAttempts(old(budget.State()), budget.limits, estimate, meets, attempts - 1);
            budget.processCalls == old(budget.processCalls) + attempts - 1
                                   + if CallMade(before, budget.limits, estimate, meets(attempts - 1).1) then 1 else 0
    ensures verdict.Decided? ==> meets(attempts - 1).0.Answered? && meets(attempts - 1).0.usable
    ensures verdict.TransportError? ==> attempts == maxRetries + 1
  {
    hide Attempted, CallMade, VerdictOf;
    attempts := 0;
    var attempt := 0;
    while true
      invariant 0 <= attempt <= maxRetries && attempts == attempt
      invariant Issued(budget.State())
      invariant budget.reservations == old(budget.reservations) && budget.processCalls == old(budget.processCalls) + attempts
      invariant budget.State() == AfterAttempts(old(budget.State()), budget.limits, estimate, meets, attempts)
      invariant forall k: nat :: k < attempts ==> AsksAgain(old(budget.State()), budget.limits, estimate, meets, k)
      decreases maxRetries - attempt
    {
      var again;
      verdict, again := Try(budget, estimate, meets(attempt).1, meets(attempt).0, attempt >= maxRetries);
      VerdictMeans(AfterAttempts(old(budget.State()), budget.limits, estimate, meets, attempts), budget.limits,
                   estimate, meets(attempt).1, meets(attempt).0);
      attempts := attempts + 1;
      if !again {
        return;
      }
      attempt := attempt + 1;
    }
  }
}
