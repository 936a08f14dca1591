/** The columns of a position that no later fill may touch: what it was opened
    with, and what a closing sale leaves behind. */
module PositionTerms {
  import opened Wrappers
  import opened Text
  import opened LedgerTables
  import opened LedgerInvariant
  import opened LedgerRuns

  /** The columns fixed at opening. */
  datatype Terms = Terms(
    id: string, signal: string, symbol: string, stop: real, take: real, openedAt: int, entryBroker: Option<string>, holding: Option<int>)

  function TermsOf(p: Position): Terms {
    Terms(p.id, p.signal, p.symbol, p.stop, p.take, p.openedAt, p.entryBroker, p.holding)
  }

  // -------------------------------------------------------------- one fill

  /** The row a purchase opens. */
  ghost predicate Opens(q: Position, o: Order, client: string, f: Fill, plan: Plan) {
    && f.side == Buy && plan.stop == Some(q.stop) && plan.take == Some(q.take) && q.stop < f.price < q.take
    && TermsOf(q) == Terms("live-position:" + q.signal, SignalOf(o, client), f.symbol, q.stop, q.take, f.filledAt,
                           f.brokerId.Or(o.brokerId), plan.holding)
    && q.quantity == f.quantity && q.entry == f.price && q.open
    && q.exitBroker == None && q.closedAt == None && q.closeReason == None
  }

  /** What a fill makes of the open row of its symbol. */
  ghost predicate MovesTo(p: Position, q: Position, o: Order, f: Fill, plan: Plan) {
    && p.open && p.symbol == f.symbol && TermsOf(q) == TermsOf(p)
    && if f.side == Buy then
         && q.quantity == p.quantity + f.quantity && q.open
         && q.exitBroker == p.exitBroker && q.closedAt == p.closedAt && q.closeReason == p.closeReason
       else
         && q.quantity == p.quantity - f.quantity && q.entry == p.entry && q.exitBroker == f.brokerId.Or(o.brokerId)
         && if q.quantity > 0 then q.open && q.closedAt == p.closedAt && q.closeReason == p.closeReason
            else !q.open && q.closedAt == Some(f.filledAt) && q.closeReason == Some(plan.closeReason)
  }

  /** One fill opens one row under a key no row has, or moves one open row; every
      other row is as it was. */
  lemma TakeInTouches(ps: seq<Position>, o: Order, client: string, f: Fill, plan: Plan)
    requires TakeIn(ps, o, client, f, plan).Done?
    ensures var qs, i := TakeIn(ps, o, client, f, plan).value, FirstOpen(ps, f.symbol);
            if i == -1 then exists q :: Opens(q, o, client, f, plan) && qs == InsertPosition(ps, q) && forall p :: p in ps ==> p.id != q.id
            else |qs| == |ps| && qs == ps[i := qs[i]] && MovesTo(ps[i], qs[i], o, f, plan)
  {
    var i := FirstOpen(ps, f.symbol);
    if i == -1 {
      var signal := SignalOf(o, client);
      var q := Position(PositionKey(signal), signal, f.symbol, f.quantity, f.price, plan.stop.value, plan.take.value, f.filledAt, true,
                        f.brokerId.Or(o.brokerId), None, None, None, plan.holding);
      assert Opens(q, o, client, f, plan);
    }
  }

  // --------------------------------------------------------- a materialisation

  /** What became of a row that was there: a closed one is as it was, an open one
      keeps its terms, and if it was closed a sale among the fills closed it. */
  ghost predicate Followed(p: Position, q: Position, fs: seq<Fill>, plan: Plan) {
    && TermsOf(q) == TermsOf(p) && (!p.open ==> q == p)
    && (p.open && q.open ==> q.closedAt == p.closedAt && q.closeReason == p.closeReason)
    && (p.open && !q.open ==>
          && q.closeReason == Some(plan.closeReason)
          && exists f :: f in fs && f.side == Sell && f.symbol == p.symbol && q.closedAt == Some(f.filledAt))
  }

  /** A new row has the plan's ladder, around the price of a purchase among the fills. */
  ghost predicate OpenedUnder(q: Position, fs: seq<Fill>, plan: Plan) {
    && plan.stop == Some(q.stop) && plan.take == Some(q.take) && q.holding == plan.holding
    && exists f :: f in fs && f.side == Buy && f.symbol == q.symbol && f.filledAt == q.openedAt && q.stop < f.price < q.take
  }

  /** Every old row is still there, and every other row was opened just now. */
  ghost predicate Framed(ps: seq<Position>, qs: seq<Position>, fs: seq<Fill>, plan: Plan) {
    && (forall p :: p in ps ==> exists q :: q in qs && Followed(p, q, fs, plan))
    && (forall q :: q in qs ==>
          (exists p :: p in ps && Followed(p, q, fs, plan)) || (OpenedUnder(q, fs, plan) && forall p :: p in ps ==> p.id != q.id))
  }

  lemma FollowedOn(p: Position, m: Position, q: Position, fs: seq<Fill>, f: Fill, plan: Plan)
    requires Followed(p, m, fs, plan) && Followed(m, q, [f], plan)
    ensures Followed(p, q, fs + [f], plan)
  {
    if m.open && !q.open {
      assert f in fs + [f] && q.closedAt == Some(f.filledAt);
    } else if p.open && !m.open {
      var g :| g in fs && g.side == Sell && g.symbol == p.symbol && m.closedAt == Some(g.filledAt);
      assert g in fs + [f];
    }
  }

  lemma OpenedOn(m: Position, q: Position, fs: seq<Fill>, f: Fill, plan: Plan)
    requires OpenedUnder(m, fs, plan) && TermsOf(q) == TermsOf(m)
    ensures OpenedUnder(q, fs + [f], plan)
  {
    var g :| g in fs && g.side == Buy && g.symbol == m.symbol && g.filledAt == m.openedAt && m.stop < g.price < m.take;
    assert g in fs + [f];
  }

  lemma MovedIsFollowed(p: Position, q: Position, o: Order, f: Fill, plan: Plan)
    requires MovesTo(p, q, o, f, plan)
    ensures Followed(p, q, [f], plan)
  {
    assert f in [f];
    assert f.side.Buy? || f.side.Sell?;
  }

  lemma OpensIsOpened(q: Position, o: Order, client: string, f: Fill, plan: Plan)
    requires Opens(q, o, client, f, plan)
    ensures OpenedUnder(q, [f], plan)
  {
    assert f in [f];
  }

  lemma SelfFollowed(p: Position, fs: seq<Fill>, plan: Plan)
    ensures Followed(p, p, fs, plan)
  {
  }

  lemma TakeInFrames(ps: seq<Position>, o: Order, client: string, f: Fill, plan: Plan)
    requires TakeIn(ps, o, client, f, plan).Done?
    ensures Framed(ps, TakeIn(ps, o, client, f, plan).value, [f], plan)
  {
    hide TakeIn, Followed, OpenedUnder, MovesTo, Opens, FirstOpen;
    TakeInTouches(ps, o, client, f, plan);
    var qs, i := TakeIn(ps, o, client, f, plan).value, FirstOpen(ps, f.symbol);
    forall p
      ensures Followed(p, p, [f], plan)
    {
      SelfFollowed(p, [f], plan);
    }
    if i == -1 {
      var q :| Opens(q, o, client, f, plan) && qs == InsertPosition(ps, q) && forall p :: p in ps ==> p.id != q.id;
      OpensIsOpened(q, o, client, f, plan);
      InsertPositionRows(ps, q);
    } else {
      MovedIsFollowed(ps[i], qs[i], o, f, plan);
      forall p | p in ps
        ensures exists q :: q in qs && Followed(p, q, [f], plan)
      {
        var k :| 0 <= k < |ps| && ps[k] == p;
        assert qs[k] in qs && Followed(p, qs[k], [f], plan);
      }
      forall q | q in qs
        ensures exists p :: p in ps && Followed(p, q, [f], plan)
      {
        var k :| 0 <= k < |qs| && qs[k] == q;
        assert ps[k] in ps && Followed(ps[k], q, [f], plan);
      }
    }
  }

  lemma FramedOn(ps: seq<Position>, ms: seq<Position>, qs: seq<Position>, fs: seq<Fill>, f: Fill, plan: Plan)
    requires Framed(ps, ms, fs, plan) && Framed(ms, qs, [f], plan)
    ensures Framed(ps, qs, fs + [f], plan)
  {
    hide Followed, OpenedUnder;
    forall p | p in ps
      ensures exists q :: q in qs && Followed(p, q, fs + [f], plan)
    {
      var m :| m in ms && Followed(p, m, fs, plan);
      var q :| q in qs && Followed(m, q, [f], plan);
      FollowedOn(p, m, q, fs, f, plan);
    }
    forall q | q in qs
      ensures (exists p :: p in ps && Followed(p, q, fs + [f], plan)) || (OpenedUnder(q, fs + [f], plan) && forall p :: p in ps ==> p.id != q.id)
    {
      if m :| m in ms && Followed(m, q, [f], plan) {
        FollowedTerms(m, q, [f], plan);
        if p :| p in ps && Followed(p, m, fs, plan) {
          FollowedOn(p, m, q, fs, f, plan);
        } else {
          OpenedOn(m, q, fs, f, plan);
        }
      } else {
        LaterOpened(q, fs, f, plan);
        forall p | p in ps
          ensures p.id != q.id
        {
          var m :| m in ms && Followed(p, m, fs, plan);
          FollowedTerms(p, m, fs, plan);
        }
      }
    }
  }

  lemma FollowedTerms(p: Position, q: Position, fs: seq<Fill>, plan: Plan)
    requires Followed(p, q, fs, plan)
    ensures TermsOf(q) == TermsOf(p) && q.id == p.id
  {
  }

  lemma LaterOpened(q: Position, fs: seq<Fill>, f: Fill, plan: Plan)
    requires OpenedUnder(q, [f], plan)
    ensures OpenedUnder(q, fs + [f], plan)
  {
    assert f in fs + [f];
  }

  lemma {:induction false} TakeInAllFrames(ps: seq<Position>, o: Order, client: string, fs: seq<Fill>, plan: Plan)
    requires TakeInAll(ps, o, client, fs, plan).Done?
    ensures Framed(ps, TakeInAll(ps, o, client, fs, plan).value, fs, plan)
  {
    hide TakeIn, Followed, OpenedUnder, Framed;
    if fs == [] {
      NothingFrames(ps, plan);
    } else {
      var front, f := fs[..|fs| - 1], fs[|fs| - 1];
      assert fs == front + [f];
      TakeInAllFrames(ps, o, client, front, plan);
      var ms := TakeInAll(ps, o, client, front, plan).value;
      TakeInFrames(ms, o, client, f, plan);
      FramedOn(ps, ms, TakeIn(ms, o, client, f, plan).value, front, f, plan);
    }
  }

  lemma NothingFrames(ps: seq<Position>, plan: Plan)
    ensures Framed(ps, ps, [], plan)
  {
    hide OpenedUnder;
    forall p
      ensures Followed(p, p, [], plan)
    {
      SelfFollowed(p, [], plan);
    }
  }

  /** Through a whole materialisation no row of the table loses its terms, closed
      rows stay as they are, a closing sale leaves its instant and the reason, and
      a new row has the ladder it was given. */
  lemma MaterializeFrames(l: Ledger, c: string, plan: Plan)
    requires Materialize(l, c, plan).Done?
    ensures Framed(l.positions, Materialize(l, c, plan).value.0.positions, Unapplied(l.fills, l.applied, c), plan)
  {
    hide TakeInAll, Framed, Unapplied, Blank, Plan.WellFormed;
    TakeInAllFrames(l.positions, l.orders[c], c, Unapplied(l.fills, l.applied, c), plan);
  }

  // ------------------------------------------------------------------- runs

  lemma OtherCallsKeepPositions(l: Ledger, call: Call)
    requires !(call.MaterializeCall? && Materialize(l, call.client, call.plan).Done?)
    ensures Execute(l, call).positions == l.positions
  {
    hide Blank, StockCode, HasFill, InsertFill, Blend, Materialize;
  }

  /** A row with these terms. */
  ghost predicate Listed(ps: seq<Position>, t: Terms) {
    exists p :: p in ps && TermsOf(p) == t
  }

  lemma ExecuteFrames(l: Ledger, call: Call, q: Position)
    requires q in Execute(l, call).positions
    ensures Listed(l.positions, TermsOf(q))
            || (call.MaterializeCall? && call.plan.stop == Some(q.stop) && call.plan.take == Some(q.take) && q.holding == call.plan.holding
                && forall p :: p in l.positions ==> p.id != q.id)
  {
    hide Execute, Materialize, Unapplied, Blank, Plan.WellFormed;
    if call.MaterializeCall? && Materialize(l, call.client, call.plan).Done? {
      MaterializeFrames(l, call.client, call.plan);
      MaterializedPositions(l, call);
      if p :| p in l.positions && Followed(p, q, Unapplied(l.fills, l.applied, call.client), call.plan) {
        FollowedTerms(p, q, Unapplied(l.fills, l.applied, call.client), call.plan);
        assert Listed(l.positions, TermsOf(q));
      }
    } else {
      OtherCallsKeepPositions(l, call);
      assert Listed(l.positions, TermsOf(q));
    }
  }

  lemma MaterializedPositions(l: Ledger, call: Call)
    requires call.MaterializeCall? && Materialize(l, call.client, call.plan).Done?
    ensures Execute(l, call).positions == Materialize(l, call.client, call.plan).value.0.positions
  {
    hide Materialize;
  }

  /** Whatever transactions came in between, a position of a reachable ledger has
      the stop, take and holding time of the one call that opened it, and has
      been in the table with the same terms ever since. */
  lemma {:induction false} LadderOfOpening(decisions: map<string, Decision>, calls: seq<Call>, j: nat, q: Position) returns (k: nat)
    requires j <= |calls| && q in ExecuteAll(Ledger(map[], [], [], [], decisions), calls[..j]).positions
    ensures k < j && calls[k].MaterializeCall?
    ensures calls[k].plan.stop == Some(q.stop) && calls[k].plan.take == Some(q.take) && q.holding == calls[k].plan.holding
    ensures forall p :: p in ExecuteAll(Ledger(map[], [], [], [], decisions), calls[..k]).positions ==> p.id != q.id
    ensures forall m :: k < m <= j ==> Listed(ExecuteAll(Ledger(map[], [], [], [], decisions), calls[..m]).positions, TermsOf(q))
    decreases j
  {
    hide Execute;
    var empty := Ledger(map[], [], [], [], decisions);
    assert calls[..0] == [] && ExecuteAll(empty, []) == empty;
    var before := ExecuteAll(empty, calls[..j - 1]);
    assert calls[..j][..j - 1] == calls[..j - 1];
    assert ExecuteAll(empty, calls[..j]) == Execute(before, calls[j - 1]);
    ExecuteFrames(before, calls[j - 1], q);
    assert Listed(ExecuteAll(empty, calls[..j]).positions, TermsOf(q));
    if p :| p in before.positions && TermsOf(p) == TermsOf(q) {
      k := LadderOfOpening(decisions, calls, j - 1, p);
    } else {
      k := j - 1;
    }
  }

  /** When a fill is taken in: a sale when the symbol's open position covers it; a
      purchase when there is an open position to add to, or when the plan's ladder
      brackets its price and no row, open or closed, has the new row's key or signal. */
  lemma TakenInIff(ps: seq<Position>, o: Order, client: string, f: Fill, plan: Plan)
    ensures TakeIn(ps, o, client, f, plan).Done? <==>
              if f.side == Sell then exists p :: p in ps && p.open && p.symbol == f.symbol && p == ps[FirstOpen(ps, f.symbol)] && f.quantity <= p.quantity
              else || (exists p :: p in ps && p.open && p.symbol == f.symbol)
                   || (plan.stop.Some? && plan.take.Some? && plan.stop.value < f.price < plan.take.value
                       && var signal := if o.signal.Some? && o.signal.value != "" then o.signal.value else "fill:" + client;
                          forall p :: p in ps ==> p.signal != signal && p.id != "live-position:" + signal)
  {
    var i := FirstOpen(ps, f.symbol);
    assert f.side.Buy? || f.side.Sell?;
    if i == -1 {
      forall p | p in ps
        ensures !(p.open && p.symbol == f.symbol)
      {
        var k :| 0 <= k < |ps| && ps[k] == p;
      }
      KeyTakenIff(ps, SignalOf(o, client));
    } else {
      assert ps[i] in ps;
    }
  }

  lemma KeyTakenIff(ps: seq<Position>, signal: string)
    ensures KeyTaken(ps, signal) <==> exists p :: p in ps && (p.signal == signal || p.id == PositionKey(signal))
  {
    if p :| p in ps && (p.signal == signal || p.id == PositionKey(signal)) {
      var k :| 0 <= k < |ps| && ps[k] == p;
    }
  }
}
