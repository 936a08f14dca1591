/** The price ladder of a new position: by either channel it is the one recorded
    with the AI decision behind the order. */
module EntryPlans {
  import opened Wrappers
  import opened LedgerTables
  import opened LedgerInvariant
  import opened LedgerRuns
  import opened Reconciliation
  import N = FillNotices

  /** The position opened by the first of a BUY's fills, with the plan's ladder. */
  ghost predicate OpenedBy(row: Option<Position>, o: Order, client: string, first: Fill, plan: Plan) {
    && row.Some? && plan.stop.Some? && plan.take.Some?
    && row.value.stop == plan.stop.value && row.value.take == plan.take.value && row.value.holding == plan.holding
    && row.value.signal == SignalOf(o, client) && row.value.openedAt == first.filledAt && row.value.symbol == first.symbol
    && row.value.stop < first.price < row.value.take
  }

  lemma TakeInBuy(ps: seq<Position>, o: Order, client: string, f: Fill, plan: Plan)
    requires OneOpenEach(ps) && f.side == Buy && TakeIn(ps, o, client, f, plan).Done?
    ensures var qs := TakeIn(ps, o, client, f, plan).value;
            && OneOpenEach(qs)
            && (OpenRow(ps, f.symbol).None? ==> OpenedBy(OpenRow(qs, f.symbol), o, client, f, plan))
            && (forall first :: OpenedBy(OpenRow(ps, f.symbol), o, client, first, plan) ==> OpenedBy(OpenRow(qs, f.symbol), o, client, first, plan))
  {
    var qs := TakeIn(ps, o, client, f, plan).value;
    var i := FirstOpen(ps, f.symbol);
    if i == -1 {
      var p :| qs == InsertPosition(ps, p) && p.open && p.symbol == f.symbol && OpenedBy(Some(p), o, client, f, plan);
      OneOpenInsert(ps, p);
      OpenRowInsert(ps, p, f.symbol);
    } else {
      OpenRowUpdate(ps, i, qs[i], f.symbol);
      assert qs == ps[i := qs[i]];
    }
  }

  lemma {:induction false} TakeInBuys(ps: seq<Position>, o: Order, client: string, fs: seq<Fill>, plan: Plan, symbol: string)
    requires OneOpenEach(ps) && OpenRow(ps, symbol).None? && TakeInAll(ps, o, client, fs, plan).Done?
    requires forall i :: 0 <= i < |fs| ==> fs[i].side == Buy && fs[i].symbol == symbol
    ensures var qs := TakeInAll(ps, o, client, fs, plan).value;
            && OneOpenEach(qs)
            && (if fs == [] then OpenRow(qs, symbol).None? else OpenedBy(OpenRow(qs, symbol), o, client, fs[0], plan))
  {
    hide TakeIn;
    if fs != [] {
      var front := fs[..|fs| - 1];
      TakeInBuys(ps, o, client, front, plan, symbol);
      TakeInBuy(TakeInAll(ps, o, client, front, plan).value, o, client, fs[|fs| - 1], plan);
    }
  }

  lemma MaterializedBuy(l: Ledger, c: string, plan: Plan)
    requires LedgerOk(l) && c in l.orders && l.orders[c].side == Buy && Unapplied(l.fills, l.applied, c) != []
    requires OpenRow(l.positions, l.orders[c].symbol).None? && Materialize(l, c, plan).Done?
    ensures OpenedBy(OpenRow(Materialize(l, c, plan).value.0.positions, l.orders[c].symbol), l.orders[c], c, Unapplied(l.fills, l.applied, c)[0], plan)
  {
    var fs := Unapplied(l.fills, l.applied, c);
    forall i | 0 <= i < |fs|
      ensures fs[i].side == Buy && fs[i].symbol == l.orders[c].symbol
    {
      assert fs[i] in fs;
    }
    TakeInBuys(l.positions, l.orders[c], c, fs, plan, l.orders[c].symbol);
  }

  /** A reconcile pass opens a position at the decision's stop and take, which
      bracket the first fill's price, and with its holding time or 900 seconds. */
  lemma ReconciledPositionHasPlan(l: Ledger, c: string)
    requires LedgerOk(l) && c in l.orders && l.orders[c].side == Buy && Unapplied(l.fills, l.applied, c) != []
    requires OpenRow(l.positions, l.orders[c].symbol).None? && MaterializeLocal(l, c, l.orders[c]).Done?
    ensures var o, first := l.orders[c], Unapplied(l.fills, l.applied, c)[0];
            var row := OpenRow(MaterializeLocal(l, c, o).value.0.positions, o.symbol);
            && o.signal.Some? && o.signal.value in l.decisions && row.Some?
            && var d := l.decisions[o.signal.value];
               && Some(row.value.stop) == d.stop && Some(row.value.take) == d.take && row.value.stop < first.price < row.value.take
               && row.value.holding == Some(if d.holding.None? || d.holding.value == 0 then 900 else d.holding.value)
  {
    hide Materialize, Unapplied;
    MaterializedBuy(l, c, EntryPlan(l.decisions[l.orders[c].signal.value]));
  }

  /** A fill notice opens one only under a complete plan, and takes it over whole. */
  lemma NotifiedPositionHasPlan(l: Ledger, c: string)
    requires LedgerOk(l) && c in l.orders && l.orders[c].side == Buy && Unapplied(l.fills, l.applied, c) != []
    requires OpenRow(l.positions, l.orders[c].symbol).None? && N.Take(l, c, l.orders[c]).Done?
    ensures var o, first := l.orders[c], Unapplied(l.fills, l.applied, c)[0];
            var row := OpenRow(N.Take(l, c, o).value.0.positions, o.symbol);
            && o.signal.Some? && o.signal.value in l.decisions && row.Some?
            && var d := l.decisions[o.signal.value];
               && Some(row.value.stop) == d.stop && Some(row.value.take) == d.take && row.value.holding == d.holding && d.holding.Some?
               && 0.0 < row.value.stop < first.price < row.value.take
  {
    hide Materialize, Unapplied;
    MaterializedBuy(l, c, N.EntryRisk(l, l.orders[c]).value);
  }
}
