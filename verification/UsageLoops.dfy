/** Retry loops that share one usage budget: each call on the budget is atomic,
    and between any two of them every other loop may make its own. */
module UsageLoops {
  import opened Wrappers
  import opened UsageBudget

  /** Where an attempt is: its reservation made, or one more cancel to come. */
  datatype Phase = Holding(token: nat) | Tidying(token: nat)

  /** The shared budget and the attempts under way, by loop. */
  datatype Crew = Crew(budget: Budget, under: map<nat, Phase>)

  datatype Act =
    | Begin(loop: nat, estimate: real, today: int)
    | Meet(loop: nat, attempt: Attempt)
    | TidyUp(loop: nat)
    | Look(today: int)

  predicate May(s: Crew, a: Act) {
    match a
    case Begin(t, _, _) => t !in s.under
    case Meet(t, _) => t in s.under && s.under[t].Holding?
    case TidyUp(t) => t in s.under && s.under[t].Tidying?
    case Look(_) => true
  }

  /** The call on the budget. */
  function EventOf(s: Crew, a: Act): Event
    requires May(s, a)
  {
    match a
    case Begin(_, estimate, today) => ReserveEvent(estimate, today)
    case Meet(t, Answered(cost, _)) => SettleEvent(s.under[t].token, cost)
    case Meet(t, _) => CancelEvent(s.under[t].token)
    case TidyUp(t) => CancelEvent(s.under[t].token)
    case Look(today) => SnapshotEvent(today)
  }

  /** Whether the handlers cancel once more: after a client error, and after a
      settlement that complains. */
  predicate CancelsAgain(b: Budget, l: Limits, token: nat, attempt: Attempt) {
    attempt.ClientError? || (attempt.Answered? && Settle(b, l, token, attempt.cost).1.Denied?)
  }

  function Acted(s: Crew, l: Limits, a: Act): Crew
    requires May(s, a)
  {
    var b := Next(s.budget, l, EventOf(s, a));
    match a
    case Begin(t, estimate, today) =>
      var r := Reserve(s.budget, l, estimate, today).1;
      Crew(b, if r.Granted? then s.under[t := Holding(r.value.token)] else s.under)
    case Meet(t, attempt) =>
      var token := s.under[t].token;
      Crew(b, if CancelsAgain(s.budget, l, token, attempt) then s.under[t := Tidying(token)] else s.under - {t})
    case TidyUp(t) => Crew(b, s.under - {t})
    case Look(_) => Crew(b, s.under)
  }

  predicate Outstanding(b: Budget, token: nat) {
    IndexOf(b.reservations, token) != -1
  }

  /** Each outstanding reservation is that of one attempt under way, and an
      attempt that has met nothing yet has its reservation. */
  ghost predicate InHand(s: Crew) {
    && Accounted(s.budget)
    && (forall t :: t in s.under ==> s.under[t].token < s.budget.issued)
    && (forall t, u :: t in s.under && u in s.under && t != u ==> s.under[t].token != s.under[u].token)
    && (forall t :: t in s.under && s.under[t].Holding? ==> Outstanding(s.budget, s.under[t].token))
    && (forall token :: Outstanding(s.budget, token) ==> exists t :: t in s.under && s.under[t].token == token)
  }

  ghost predicate Interleaving(ss: seq<Crew>, l: Limits, acts: seq<Act>) {
    && l.Valid() && |ss| == |acts| + 1
    && ss[0] == Crew(Budget(ss[0].budget.day, 0, 0, 0.0, 0.0, 0.0, 0.0, [], 0), map[])
    && (forall i :: 0 <= i < |acts| ==> May(ss[i], acts[i]) && ss[i + 1] == Acted(ss[i], l, acts[i]))
    && (forall i :: 0 <= i < |acts| && acts[i].Begin? ==> ss[i].budget.day <= acts[i].today)
    && (forall i :: 0 <= i < |acts| && acts[i].Look? ==> ss[i].budget.day <= acts[i].today)
  }

  // ----------------------------------------------------- single calls and tokens

  lemma TokenStays(b: Budget, i: nat, token: nat)
    requires Accounted(b) && i < |b.reservations|
    ensures Outstanding(Popped(b, i), token) <==> Outstanding(b, token) && token != b.reservations[i].token
  {
    var rs, less := b.reservations, Without(b.reservations, i);
    if k :| 0 <= k < |rs| && rs[k].token == token && k != i {
      assert less[if k < i then k else k - 1] == rs[k];
    }
    if k :| 0 <= k < |less| && less[k].token == token {
      assert less[k] == rs[if k < i then k else k + 1];
    }
  }

  /** A cancel takes out the token's own reservation and no other. */
  lemma CancelTokens(b: Budget, token: nat)
    requires Accounted(b)
    ensures forall t: nat :: Outstanding(Cancel(b, token), t) <==> Outstanding(b, t) && t != token
    ensures Cancel(b, token).issued == b.issued
  {
    hide Popped, Accounted;
    var i := IndexOf(b.reservations, token);
    if i != -1 {
      forall t: nat
        ensures Outstanding(Popped(b, i), t) <==> Outstanding(b, t) && t != token
      {
        TokenStays(b, i, t);
      }
      PoppedIssued(b, i);
    }
  }

  lemma PoppedIssued(b: Budget, i: nat)
    requires i < |b.reservations|
    ensures Popped(b, i).issued == b.issued
  {
  }

  /** So does a settlement, unless its amount is refused. */
  lemma SettleTokens(b: Budget, l: Limits, token: nat, actual: real)
    requires Accounted(b)
    ensures forall t: nat :: Outstanding(Settle(b, l, token, actual).0, t) <==> Outstanding(b, t) && (t != token || actual < 0.0)
    ensures Settle(b, l, token, actual).0.issued == b.issued
    ensures actual < 0.0 ==> Settle(b, l, token, actual).1.Denied?
  {
    hide Popped, Accounted;
    var i := IndexOf(b.reservations, token);
    if i != -1 && actual >= 0.0 {
      forall t: nat
        ensures Outstanding(Popped(b, i), t) <==> Outstanding(b, t) && t != token
      {
        TokenStays(b, i, t);
      }
      PoppedIssued(b, i);
    }
  }

  lemma AppendedToken(b: Budget, c: Budget, r: Reservation, token: nat)
    requires c.reservations == b.reservations + [r]
    ensures Outstanding(c, token) <==> Outstanding(b, token) || token == r.token
  {
    assert c.reservations[|b.reservations|] == r;
    if k :| 0 <= k < |b.reservations| && b.reservations[k].token == token {
      assert c.reservations[k].token == token;
    }
  }

  // --------------------------------------------------------------- the theorem

  lemma BeginKeeps(s: Crew, l: Limits, a: Act)
    requires InHand(s) && a.Begin? && May(s, a) && s.budget.day <= a.today
    ensures InHand(Acted(s, l, a))
  {
    hide Accounted, Outstanding, Reserve;
    var v := Acted(s, l, a);
    StepAccounted(s.budget, l, EventOf(s, a));
    ReserveFacts(s.budget, l, a.estimate, a.today);
    var r := Reserve(s.budget, l, a.estimate, a.today).1;
    forall token: nat
      ensures Outstanding(v.budget, token) <==> Outstanding(s.budget, token) || (r.Granted? && token == r.value.token)
    {
      if r.Granted? {
        AppendedToken(s.budget, v.budget, r.value, token);
      } else {
        SameTokens(s.budget, v.budget, token);
      }
    }
    forall token: nat | Outstanding(v.budget, token)
      ensures exists t :: t in v.under && v.under[t].token == token
    {
      if Outstanding(s.budget, token) {
        var t :| t in s.under && s.under[t].token == token;
        assert t in v.under && v.under[t].token == token;
      } else {
        assert a.loop in v.under && v.under[a.loop].token == token;
      }
    }
  }

  lemma SameTokens(b: Budget, c: Budget, token: nat)
    requires c.reservations == b.reservations
    ensures Outstanding(c, token) <==> Outstanding(b, token)
  {
  }

  /** What leaves an attempt's token as the only one that can have gone. */
  lemma OwnTokenKeeps(s: Crew, v: Crew, t: nat)
    requires InHand(s) && t in s.under && Accounted(v.budget) && v.budget.issued == s.budget.issued
    requires forall token: nat :: token != s.under[t].token ==> (Outstanding(v.budget, token) <==> Outstanding(s.budget, token))
    requires v.under == s.under[t := Tidying(s.under[t].token)]
             || (v.under == s.under - {t} && !Outstanding(v.budget, s.under[t].token))
    ensures InHand(v)
  {
    hide Accounted, Outstanding;
    forall token: nat | Outstanding(v.budget, token)
      ensures exists u :: u in v.under && v.under[u].token == token
    {
      var u :| u in s.under && s.under[u].token == token;
      assert u in v.under && v.under[u].token == token;
    }
  }

  lemma MeetKeeps(s: Crew, l: Limits, a: Act)
    requires InHand(s) && (a.Meet? || a.TidyUp?) && May(s, a)
    ensures InHand(Acted(s, l, a))
  {
    hide Accounted, Outstanding, Settle, Cancel;
    var token := s.under[a.loop].token;
    StepAccounted(s.budget, l, EventOf(s, a));
    CancelTokens(s.budget, token);
    if a.Meet? && a.attempt.Answered? {
      SettleTokens(s.budget, l, token, a.attempt.cost);
    }
    OwnTokenKeeps(s, Acted(s, l, a), a.loop);
  }

  lemma LookKeeps(s: Crew, l: Limits, a: Act)
    requires InHand(s) && a.Look? && s.budget.day <= a.today
    ensures InHand(Acted(s, l, a))
  {
    hide Accounted, Outstanding;
    StepAccounted(s.budget, l, EventOf(s, a));
    var v := Acted(s, l, a);
    forall token: nat
      ensures Outstanding(v.budget, token) <==> Outstanding(s.budget, token)
    {
      SameTokens(s.budget, v.budget, token);
    }
  }

  /** However the calls of any number of loops interleave: each outstanding
      reservation belongs to one attempt under way, every attempt waiting for its
      answer has its reservation, and with no attempt under way nothing at all is
      reserved. */
  lemma {:induction false} NothingLeaks(ss: seq<Crew>, l: Limits, acts: seq<Act>, j: nat)
    requires Interleaving(ss, l, acts) && j < |ss|
    ensures InHand(ss[j])
    ensures ss[j].under == map[] ==>
              ss[j].budget.reservations == [] && ss[j].budget.processReserved == 0.0 == ss[j].budget.dailyReserved
  {
    hide InHand, Acted, EventOf;
    if j == 0 {
      NothingInHand(ss[0]);
    } else {
      NothingLeaks(ss, l, acts, j - 1);
      var s, a := ss[j - 1], acts[j - 1];
      assert May(s, a) && ss[j - 1 + 1] == Acted(s, l, a);
      match a
      case Begin(_, _, _) => BeginKeeps(s, l, a);
      case Look(_) => LookKeeps(s, l, a);
      case _ => MeetKeeps(s, l, a);
    }
    if ss[j].under == map[] {
      EmptyHands(ss[j]);
    }
  }

  lemma NothingInHand(s: Crew)
    requires s == Crew(Budget(s.budget.day, 0, 0, 0.0, 0.0, 0.0, 0.0, [], 0), map[])
    ensures InHand(s)
  {
  }

  lemma EmptyHands(s: Crew)
    requires InHand(s) && s.under == map[]
    ensures s.budget.reservations == [] && s.budget.processReserved == 0.0 == s.budget.dailyReserved
  {
    if s.budget.reservations != [] {
      assert Outstanding(s.budget, s.budget.reservations[0].token);
      assert false;
    }
  }

  /** The events of the first acts of a run. */
  ghost function EventsOf(ss: seq<Crew>, acts: seq<Act>): seq<Event>
    requires |ss| == |acts| + 1 && forall i :: 0 <= i < |acts| ==> May(ss[i], acts[i])
  {
    seq(|acts|, i requires 0 <= i < |acts| => EventOf(ss[i], acts[i]))
  }

  /** The limits hold over interleaved loops as well: their calls are a run of the budget. */
  lemma LimitsHold(ss: seq<Crew>, l: Limits, acts: seq<Act>, j: nat)
    requires Interleaving(ss, l, acts) && j < |ss|
    ensures var bs, es := seq(|ss|, i requires 0 <= i < |ss| => ss[i].budget), EventsOf(ss, acts);
            && Run(bs, l, es)
            && ss[j].budget.processCalls == Grants(bs, l, es, j) <= l.processCalls
            && ss[j].budget.processCost + ss[j].budget.processReserved <= l.processCost + TotalOvershoot(bs, es, j)
            && ss[j].budget.dailyCost + ss[j].budget.dailyReserved <= l.dailyCost + DayOvershoot(bs, es, j, ss[j].budget.day)
  {
    hide Next, Grants, TotalOvershoot, DayOvershoot;
    var bs, es := seq(|ss|, i requires 0 <= i < |ss| => ss[i].budget), EventsOf(ss, acts);
    forall i | 0 <= i < |es|
      ensures bs[i + 1] == Next(bs[i], l, es[i])
      ensures es[i].ReserveEvent? || es[i].SnapshotEvent? ==> bs[i].day <= es[i].today
    {
      assert May(ss[i], acts[i]) && ss[i + 1] == Acted(ss[i], l, acts[i]);
    }
    BudgetHolds(bs, l, es, j);
  }

  /** What the loop's own next calls make of its attempt when no other loop acts in between. */
  function Alone(s: Crew, l: Limits, t: nat, estimate: real, today: int, attempt: Attempt): Crew
    requires t !in s.under
  {
    var begun := Acted(s, l, Begin(t, estimate, today));
    if t !in begun.under then begun
    else
      var met := Acted(begun, l, Meet(t, attempt));
      if t in met.under then Acted(met, l, TidyUp(t)) else met
  }

  /** Left alone, the acts of one attempt are the loop body's calls. */
  lemma AloneIsAttempted(s: Crew, l: Limits, t: nat, estimate: real, today: int, attempt: Attempt)
    requires t !in s.under
    ensures Alone(s, l, t, estimate, today, attempt) == Crew(Attempted(s.budget, l, estimate, today, attempt), s.under)
  {
    hide Reserve, Settle, Cancel;
    var begun := Acted(s, l, Begin(t, estimate, today));
    if t in begun.under {
      assert begun.under - {t} == s.under;
      var token := begun.under[t].token;
      assert s.under[t := Tidying(token)] - {t} == s.under;
      assert begun.under[t := Tidying(token)] == s.under[t := Tidying(token)];
    }
  }
}
