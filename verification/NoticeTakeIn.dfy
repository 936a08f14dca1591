/** What a fill notice that is answered as applied has done: one new fill row, and
    everything its order had pending taken into the position. */
module NoticeTakeIn {
  import opened Wrappers
  import opened Text
  import opened LedgerTables
  import opened LedgerInvariant
  import opened LedgerRuns
  import opened TruthfulBroker
  import N = FillNotices

  /** The row a fill notice for order `c` is recorded as. */
  function RowFor(n: N.Notice, c: string, id: string, filledAt: int, received: int): Fill
    requires n.quantity > 0 && n.price > 0 && n.side.Some?
  {
    Fill(id, c, n.number, n.symbol, n.side.value, n.quantity, n.price as real, filledAt, received)
  }

  /** A new fill of the one order it names, within the request, of an order that is
      not cancelled or rejected and has an entry plan if it is a BUY. */
  ghost predicate Recordable(l: Ledger, n: N.Notice, c: string, id: string) {
    && n.kind.Filling? && n.number.Some? && n.side.Some? && N.Only(l.orders, n.number.value, c)
    && var o := l.orders[c];
    && o.symbol == n.symbol && Some(o.side) == n.side && o.requested == n.ordered
    && n.quantity > 0 && n.price > 0 && o.filled + n.quantity <= o.requested
    && o.status != Cancelled && o.status != Rejected && N.EntryRisk(l, o).Some?
    && !Blank(c) && !Blank(n.number.value) && StockCode(n.symbol)
    && forall f :: f in l.fills ==> f.id != id
  }

  /** The ledger with the notice's row and what it does to the order, before the take-in. */
  ghost function WithRow(l: Ledger, n: N.Notice, c: string, id: string, filledAt: int, received: int): Ledger
    requires Recordable(l, n, c, id)
  {
    Recorded(l, RowFor(n, c, id, filledAt, received))
  }

  lemma NoSuchFill(fs: seq<Fill>, id: string)
    ensures !HasFill(fs, id) <==> forall f :: f in fs ==> f.id != id
  {
    if HasFill(fs, id) {
      var i :| 0 <= i < |fs| && fs[i].id == id;
      assert fs[i] in fs;
    }
  }

  lemma RecordedBy(l: Ledger, n: N.Notice, c: string, id: string, filledAt: int, now: int)
    requires Recordable(l, n, c, id) && !Blank(id)
    ensures ApplyFill(l, N.Request(n, c, id, filledAt, now)) == Done((WithRow(l, n, c, id, filledAt, now), true))
  {
    hide Blank, StockCode, InsertFill, RolledUp, N.EntryRisk, N.Only;
    assert c in l.orders && l.orders[c].brokerId == n.number by { OnlyHas(l, n.number.value, c); }
    NoSuchFill(l.fills, id);
  }

  lemma OnlyHas(l: Ledger, number: string, c: string)
    requires N.Only(l.orders, number, c)
    ensures c in l.orders && l.orders[c].brokerId == Some(number)
    ensures forall d :: N.Only(l.orders, number, d) ==> d == c
  {
  }

  /** The order's own handling answers Applied exactly for a recordable fill whose
      take-in succeeds. */
  lemma KnownAppliedIff(l: Ledger, n: N.Notice, c: string, id: string, filledAt: int, now: int)
    requires LedgerOk(l) && n.number.Some? && n.side.Some? && N.Only(l.orders, n.number.value, c) && !Blank(id)
    ensures var (m, r) := N.HandleKnown(l, c, n, id, filledAt, now);
            && (r.Applied? <==> Recordable(l, n, c, id)
                                && Materialize(WithRow(l, n, c, id, filledAt, now), c, N.EntryRisk(l, l.orders[c]).value).Done?)
            && (r.Applied? ==>
                  Materialize(WithRow(l, n, c, id, filledAt, now), c, N.EntryRisk(l, l.orders[c]).value) == Done((m, r.taken)))
  {
    hide LedgerOk, Blank, StockCode, Materialize, ApplyFill, WithRow, N.Only;
    OnlyHas(l, n.number.value, c);
    NoSuchFill(l.fills, id);
    if Recordable(l, n, c, id) {
      RecordedBy(l, n, c, id, filledAt, now);
      SameRisk(l, n, c, id, filledAt, now);
    } else if N.HandleKnown(l, c, n, id, filledAt, now).1.Applied? {
      AppliedWasFit(l, n, c, id, filledAt, now);
    }
  }

  lemma SameRisk(l: Ledger, n: N.Notice, c: string, id: string, filledAt: int, now: int)
    requires Recordable(l, n, c, id)
    ensures N.EntryRisk(WithRow(l, n, c, id, filledAt, now), l.orders[c]) == N.EntryRisk(l, l.orders[c])
  {
    hide Blank, StockCode, InsertFill, RolledUp;
  }

  lemma AppliedWasFit(l: Ledger, n: N.Notice, c: string, id: string, filledAt: int, now: int)
    requires n.number.Some? && n.side.Some? && N.Only(l.orders, n.number.value, c)
    requires N.HandleKnown(l, c, n, id, filledAt, now).1.Applied?
    ensures Recordable(l, n, c, id)
  {
    hide Blank, StockCode, Materialize, InsertFill, RolledUp, N.EntryRisk;
    NoSuchFill(l.fills, id);
  }

  /** Whenever a notice is answered as applied, one row was added, with the notice's
      quantity, price and instant; its order has nothing left to take in; the count
      answered is the number of fills taken in, the new one among them; and each
      symbol's open quantity moved by the signed total of those fills. */
  lemma AppliedTakesIn(l: Ledger, n: N.Notice, a: N.Arrival, digest: N.Notice -> string) returns (c: string, f: Fill)
    requires LedgerOk(l) && N.Handle(l, n, a, digest).1.Applied?
    ensures N.Only(l.orders, n.number.value, c) && N.FilledAt(n, a).Some? && n.side.Some? && n.quantity > 0 && n.price > 0
    ensures f == Fill("kis:fill:" + digest(n), c, n.number, n.symbol, n.side.value, n.quantity, n.price as real, N.FilledAt(n, a).value, a.received)
    ensures var (m, r) := N.Handle(l, n, a, digest);
            && f !in l.fills && multiset(m.fills) == multiset(l.fills) + multiset{f} && f in m.applied
            && Unapplied(m.fills, m.applied, c) == []
            && var news := Unapplied(m.fills, l.applied, c);
               && m.applied == l.applied + news && r.taken == |news|
               && forall s :: OpenQuantity(m.positions, s) == OpenQuantity(l.positions, s) + Total(news, NetOf(s))
  {
    hide LedgerOk, N.HandleKnown, Materialize, ApplyFill, Blank, StockCode, N.FilledAt, N.EntryRisk, OpenQuantity, Unapplied;
    var id, at := "kis:fill:" + digest(n), N.FilledAt(n, a).value;
    c :| N.Only(l.orders, n.number.value, c) && N.Handle(l, n, a, digest) == N.HandleKnown(l, c, n, id, at, a.received);
    N.NoticeIdNotBlank(digest(n));
    KnownAppliedIff(l, n, c, id, at, a.received);
    f := RowFor(n, c, id, at, a.received);
    var (m, r) := N.Handle(l, n, a, digest);
    var plan := N.EntryRisk(l, l.orders[c]).value;
    var mid := WithRow(l, n, c, id, at, a.received);
    OnlyHas(l, n.number.value, c);
    NoSuchFill(l.fills, id);
    RowFits(l, n, c, id, at, a.received);
    RecordingKeeps(l, f);
    TakenOf(mid, c, plan);
    MaterializeOnce(mid, c, plan, plan);
    TakenOf(m, c, plan);
    InsertFillRows(l.fills, f);
    MaterializeTakesAll(mid, c, plan, f);
    forall s
      ensures OpenQuantity(m.positions, s) == OpenQuantity(l.positions, s) + Total(Unapplied(m.fills, l.applied, c), NetOf(s))
    {
      TakingInMoves(mid, c, plan, s);
    }
  }

  lemma RowFits(l: Ledger, n: N.Notice, c: string, id: string, filledAt: int, received: int)
    requires Recordable(l, n, c, id)
    ensures LedgerRuns.Fits(l, RowFor(n, c, id, filledAt, received))
  {
    hide Blank, StockCode;
    NoSuchFill(l.fills, id);
  }

  lemma TakenOf(l: Ledger, c: string, plan: Plan)
    requires Materialize(l, c, plan).Done?
    ensures plan.WellFormed()
    ensures var (m, k) := Materialize(l, c, plan).value;
            m.fills == l.fills && m.applied == l.applied + Unapplied(l.fills, l.applied, c) && k == |Unapplied(l.fills, l.applied, c)|
  {
    hide Unapplied, TakeInAll;
  }

  /** And a notice is answered so exactly when it names one order, comes in time,
      and its fill is recordable with a take-in that succeeds. */
  lemma AppliedIff(l: Ledger, n: N.Notice, a: N.Arrival, digest: N.Notice -> string)
    requires LedgerOk(l)
    ensures N.Handle(l, n, a, digest).1.Applied? <==>
              && N.FilledAt(n, a).Some?
              && exists c :: Recordable(l, n, c, "kis:fill:" + digest(n))
                             && Materialize(WithRow(l, n, c, "kis:fill:" + digest(n), N.FilledAt(n, a).value, a.received), c,
                                            N.EntryRisk(l, l.orders[c]).value).Done?
  {
    hide LedgerOk, N.HandleKnown, Materialize, ApplyFill, Blank, StockCode, N.FilledAt, N.EntryRisk, WithRow;
    var id := "kis:fill:" + digest(n);
    N.NoticeIdNotBlank(digest(n));
    if N.FilledAt(n, a).Some? && n.side.Some? && n.number.Some? {
      if c :| N.Only(l.orders, n.number.value, c) {
        OnlyHas(l, n.number.value, c);
        KnownAppliedIff(l, n, c, id, N.FilledAt(n, a).value, a.received);
      }
    }
  }

  /** A notice comes in time when it names a time of day, of today or of an earlier
      trading day the caller names, that is not still to come. */
  lemma InTimeIff(n: N.Notice, a: N.Arrival, at: int)
    ensures N.FilledAt(n, a) == Some(at) <==>
              n.time.Some? && at <= a.received
              && if a.day.Some? then a.day.value <= a.received / 86400 && at == a.day.value * 86400 + n.time.value
                 else at == a.received / 86400 * 86400 + n.time.value
  {
  }

  /** A BUY has an entry plan exactly when the decision under its signal is complete
      and its stop and take are positive and ordered; the plan is then that one. */
  lemma PlanIsTheDecision(l: Ledger, o: Order)
    ensures o.side == Buy ==>
              (N.EntryRisk(l, o).Some? <==>
                && o.signal.Some? && o.signal.value != "" && o.signal.value in l.decisions
                && var d := l.decisions[o.signal.value];
                   d.stop.Some? && d.take.Some? && d.holding.Some? && 0.0 < d.stop.value < d.take.value && 0 < d.holding.value)
    ensures o.side == Buy && N.EntryRisk(l, o).Some? ==>
              var (p, d) := (N.EntryRisk(l, o).value, l.decisions[o.signal.value]);
              p.stop == d.stop && p.take == d.take && p.holding == d.holding
    ensures o.side == Sell ==> N.EntryRisk(l, o).Some?
  {
  }

  /** What an accepted or rejected notice about a known order is answered with, and
      that nothing but the order's status, its stamp and its cleared error move. */
  lemma StatusNoticeAnswers(l: Ledger, n: N.Notice, c: string, id: string, filledAt: int, now: int)
    requires LedgerOk(l) && c in l.orders && !Blank(c) && !n.kind.Filling?
    requires var o := l.orders[c]; o.symbol == n.symbol && n.side == Some(o.side) && o.requested == n.ordered && n.quantity == 0
    ensures var (m, r) := N.HandleKnown(l, c, n, id, filledAt, now);
            var o := l.orders[c];
            var begun := o.filled > 0;
            && (n.kind.Accepted? ==>
                  r == match o.status
                       case CancelPending => N.Ignores
                       case PartiallyFilled => if begun then N.Ignores else N.Acknowledges
                       case Filled => if begun then N.Ignores else N.Blocks
                       case Unknown => N.Blocks
                       case Cancelled => N.Blocks
                       case Rejected => N.Blocks
                       case _ => if begun then N.Blocks else N.Acknowledges)
            && (n.kind.Refused? ==>
                  r == if begun then N.Blocks
                       else match o.status
                            case Unknown => N.Blocks
                            case Filled => N.Blocks
                            case Cancelled => N.Blocks
                            case _ => N.Rejects)
            && var s := if r.Acknowledges? then Acknowledged else if r.Rejects? then Rejected else o.status;
               m == if s == o.status then l
                    else PutOrder(l, c, o.(status := s, updatedAt := now, completedAt := if s == Rejected then Some(now) else None, error := None))
  {
    hide LedgerOk, Blank;
    N.SumIsFilled(l, c);
  }

  /** A notice that disagrees with its order in symbol, side or quantity blocks and
      changes nothing; a fill already taken in is a duplicate and changes nothing. */
  lemma NoticeStopped(l: Ledger, n: N.Notice, c: string, id: string, filledAt: int, now: int)
    requires c in l.orders
    ensures var (o, known) := (l.orders[c], N.HandleKnown(l, c, n, id, filledAt, now));
            && ((o.symbol != n.symbol || n.side != Some(o.side) || o.requested != n.ordered || n.quantity < 0
                 || (!n.kind.Filling? && n.quantity != 0))
                ==> known == (l, N.Blocks))
            && ((o.symbol == n.symbol && n.side == Some(o.side) && o.requested == n.ordered && n.quantity >= 0 && n.kind.Filling?
                 && HasFill(l.fills, id) && HasFill(l.applied, id))
                ==> known == (l, N.Duplicate(0)))
  {
    hide HasFill, ApplyFill, Materialize;
  }
}
