/** A reconcile pass over truthful records: it never raises, leaves every order
    it finds level with the broker, and moves positions by what it adopts. */
module ReconcileTruth {
  import opened Wrappers
  import opened Text
  import opened LedgerTables
  import opened LedgerInvariant
  import opened LedgerRuns
  import opened BrokerRecords
  import opened Reconciliation
  import opened TruthfulBroker

  /** What no pass ever changes about an order. */
  ghost predicate SameIdentity(o: Order, p: Order) {
    && p.signal == o.signal && p.symbol == o.symbol && p.side == o.side && p.requested == o.requested
    && p.price == o.price && p.createdAt == o.createdAt && p.submittedAt == o.submittedAt && p.brokerId == o.brokerId
  }

  ghost predicate Level(o: Order, rec: Record) {
    o.filled == rec.filled && o.average == rec.average
  }

  /** The step from `l` to `m` touched order `c` only: it kept its identity, lost
      no fills, did not come back from a terminal status, and a symbol's open
      quantity fell by no more than the shares a sale of it gained. */
  ghost predicate RowEffect(l: Ledger, m: Ledger, c: string)
    requires c in l.orders
  {
    && m.decisions == l.decisions
    && c in m.orders && m.orders == l.orders[c := m.orders[c]]
    && SameIdentity(l.orders[c], m.orders[c])
    && l.orders[c].filled <= m.orders[c].filled
    && (l.orders[c].status.Terminal() ==> m.orders[c].status.Terminal() && m.orders[c].filled == l.orders[c].filled)
    && (forall s :: OpenQuantity(m.positions, s) >= OpenQuantity(l.positions, s) - SoldSince(l, m, c, s))
    && NothingElsePending(l, m, c)
  }

  /** No other order has come to have a fill that is not taken in. */
  ghost predicate NothingElsePending(l: Ledger, m: Ledger, c: string) {
    forall d :: d != c && Unapplied(l.fills, l.applied, d) == [] ==> Unapplied(m.fills, m.applied, d) == []
  }

  lemma PendingStays(l: Ledger, m: Ledger, c: string, news: seq<Fill>)
    requires forall g :: g in m.fills ==> g in l.fills || g in news
    requires forall g :: g in news ==> g.client == c
    requires forall id :: HasFill(l.applied, id) ==> HasFill(m.applied, id)
    ensures NothingElsePending(l, m, c)
  {
    forall d | d != c && Unapplied(l.fills, l.applied, d) == []
      ensures Unapplied(m.fills, m.applied, d) == []
    {
      var fs := Unapplied(m.fills, m.applied, d);
      if fs != [] {
        var f := AMember(fs);
        PendingFill(l, d, f);
        assert false;
      }
    }
  }

  lemma PendingFill(l: Ledger, d: string, f: Fill)
    requires f in l.fills && f.client == d && !HasFill(l.applied, f.id)
    ensures Unapplied(l.fills, l.applied, d) != []
  {
    assert f in Unapplied(l.fills, l.applied, d);
  }

  ghost function SoldSince(l: Ledger, m: Ledger, c: string, s: string): int
    requires c in l.orders && c in m.orders
  {
    if l.orders[c].side == Sell && l.orders[c].symbol == s then m.orders[c].filled - l.orders[c].filled else 0
  }

  /** A live sale asks for no more than the symbol's open position. */
  ghost predicate SaleCovered(l: Ledger, c: string)
    requires c in l.orders
  {
    l.orders[c].side == Sell && !l.orders[c].status.Terminal() ==>
      l.orders[c].requested - l.orders[c].filled <= OpenQuantity(l.positions, l.orders[c].symbol)
  }

  lemma TakeEffect(l: Ledger, broker: map<string, BrokerOrder>, c: string, local: Order)
    requires Mirrors(l, broker) && c in l.orders && local.side == l.orders[c].side
    ensures var m := After(l, MaterializeLocal(l, c, local));
            && Mirrors(m, broker) && m.orders == l.orders && m.fills == l.fills && m.decisions == l.decisions
            && (forall id :: HasFill(l.applied, id) ==> HasFill(m.applied, id))
            && (MaterializeLocal(l, c, local).Done? ==> Unapplied(m.fills, m.applied, c) == [])
            && (local.side == Buy ==> forall s :: OpenQuantity(m.positions, s) >= OpenQuantity(l.positions, s))
  {
    var r := MaterializeLocal(l, c, local);
    if r.Done? {
      var plan := if local.side == Sell then Plan(None, None, None, "broker_fill") else EntryPlan(l.decisions[local.signal.value]);
      TakingInMirrors(l, broker, c, plan);
      MaterializeOnce(l, c, plan, plan);
      AppendKeepsFills(l.applied, Unapplied(l.fills, l.applied, c));
      UnappliedSide(l, c);
      forall s
        ensures local.side == Buy ==> OpenQuantity(r.value.0.positions, s) >= OpenQuantity(l.positions, s)
      {
        TakingInMoves(l, c, plan, s);
        NetOfOneSide(Unapplied(l.fills, l.applied, c), l.orders[c].symbol, l.orders[c].side, s);
      }
    }
  }

  lemma AppendKeepsFills(fs: seq<Fill>, gs: seq<Fill>)
    ensures forall id :: HasFill(fs, id) ==> HasFill(fs + gs, id)
  {
    forall id | HasFill(fs, id)
      ensures HasFill(fs + gs, id)
    {
      var i :| 0 <= i < |fs| && fs[i].id == id;
      assert (fs + gs)[i].id == id;
    }
  }

  /** A sale's one new fill is taken in, and moves only its own symbol. */
  lemma SaleEffect(l: Ledger, broker: map<string, BrokerOrder>, c: string, local: Order, f: Fill)
    requires Mirrors(l, broker) && c in l.orders && local.side == l.orders[c].side == Sell
    requires Unapplied(l.fills, l.applied, c) == [f] && f.quantity <= OpenQuantity(l.positions, f.symbol)
    ensures MaterializeLocal(l, c, local).Done?
    ensures var m := MaterializeLocal(l, c, local).value.0;
            HasFill(m.applied, f.id)
            && forall s :: OpenQuantity(m.positions, s) == OpenQuantity(l.positions, s) - (if s == f.symbol then f.quantity else 0)
  {
    var plan := Plan(None, None, None, "broker_fill");
    SaleFits(l, c, f, plan);
    var m := Materialize(l, c, plan).value.0;
    assert f in Unapplied(l.fills, l.applied, c);
    MaterializeTakesAll(l, c, plan, f);
    UnappliedSide(l, c);
    forall s
      ensures OpenQuantity(m.positions, s) == OpenQuantity(l.positions, s) - (if s == f.symbol then f.quantity else 0)
    {
      TakingInMoves(l, c, plan, s);
      assert Total([f], NetOf(s)) == NetOf(s)(f) + Total([f][1..], NetOf(s));
    }
  }

  lemma NoSaleEffect(l: Ledger, c: string, local: Order)
    requires c in l.orders && !Blank(c) && local.side == Sell && Unapplied(l.fills, l.applied, c) == []
    ensures MaterializeLocal(l, c, local) == Done((l, 0))
  {
    NothingToTakeIn(l, c, Plan(None, None, None, "broker_fill"));
  }

  ghost function Confirmed(l: Ledger, c: string, local: Order, rec: Record, now: int): Ledger
    requires c in l.orders && LocalStatus(rec.status).Some?
  {
    PutOrder(l, c, UpdatedStatus(l.orders[c], NextStatus(local, LocalStatus(rec.status).value), Some(rec.number),
                                 Some(rec.filled), rec.average, now))
  }

  /** Level with the record, the status write changes no count and no average. */
  lemma ConfirmTruth(p: Progress, broker: map<string, BrokerOrder>, c: string, local: Order, rec: Record, now: int)
    requires Ready(p.ledger, broker, c, rec) && Level(p.ledger.orders[c], rec)
    ensures LocalStatus(rec.status).Some?
    ensures var l := Confirmed(p.ledger, c, local, rec, now);
            && Mirrors(l, broker) && Level(l.orders[c], rec) && SameIdentity(p.ledger.orders[c], l.orders[c])
            && var r := MaterializeLocal(l, c, local);
               var q := AdoptStatus(p, c, local, rec, now);
               && q.ledger == After(l, r) && q.error == p.error
               && (r.Done? ==> q.tally.reasons == p.tally.reasons)
               && (r.Raised? ==> q.tally.reasons == p.tally.reasons + [MaterializeFailed(c)])
  {
    hide Mirrors, MaterializeLocal;
    ReadyFacts(p.ledger, broker, c, rec);
    var b := broker[rec.number];
    if rec.filled > 0 {
      MeanPositive(rec.average, rec.filled, b.notional);
    }
    var l := Confirmed(p.ledger, c, local, rec, now);
    assert SameAccount(p.ledger.orders[c], l.orders[c]);
    StatusMirrors(p.ledger, broker, c, l.orders[c]);
  }

  /** The state a row starts from. */
  ghost predicate RowReady(l: Ledger, broker: map<string, BrokerOrder>, c: string) {
    && Mirrors(l, broker) && SalesTakenIn(l) && c in l.orders
    && (l.orders[c].brokerId.Some? ==> SaleCovered(l, c))
  }

  ghost predicate Stamped(o: Order, now: int) {
    o.updatedAt == now && o.error == None && o.completedAt == if o.status.Terminal() then Some(now) else None
  }

  /** The row after its fills, if any, were recorded and its status was written. */
  ghost predicate RowDone(l: Ledger, m: Ledger, broker: map<string, BrokerOrder>, c: string, rec: Record, now: int)
    requires c in l.orders && rec.number in broker
  {
    && Mirrors(m, broker) && SalesTakenIn(m) && RowEffect(l, m, c) && Level(m.orders[c], rec) && Stamped(m.orders[c], now)
    && m.orders[c].status == NextStatus(l.orders[c], broker[rec.number].LocalStatus())
  }

  lemma AppliedIsFill(l: Ledger, id: string)
    requires AppliedRows(l) && HasFill(l.applied, id)
    ensures HasFill(l.fills, id)
  {
    var i :| 0 <= i < |l.applied| && l.applied[i].id == id;
    var f := l.applied[i];
    assert f in l.applied;
    var j :| 0 <= j < |l.fills| && l.fills[j] == f;
  }

  /** The ledger once the row's fills are recorded: as it was, or with one more fill. */
  ghost predicate Adopted(l: Ledger, l1: Ledger, broker: map<string, BrokerOrder>, c: string, rec: Record, news: seq<Fill>) {
    && Ready(l, broker, c, rec) && Ready(l1, broker, c, rec) && Level(l1.orders[c], rec)
    && match |news| {
         case 0 => l1 == l
         case 1 => Adopts(l, broker, c, rec, news[0]) && l1 == Recorded(l, news[0])
         case _ => false
       }
  }

  lemma AdoptedFacts(l: Ledger, l1: Ledger, broker: map<string, BrokerOrder>, c: string, rec: Record, news: seq<Fill>)
    requires Adopted(l, l1, broker, c, rec, news)
    ensures l1.applied == l.applied && l1.positions == l.positions && l1.decisions == l.decisions
    ensures l1.orders == l.orders[c := l1.orders[c]] && SameIdentity(l.orders[c], l1.orders[c])
    ensures l.orders[c].filled <= rec.filled
    ensures forall g :: g in l1.fills <==> g in l.fills || g in news
    ensures forall g :: g in news ==> g.side == l.orders[c].side && g.client == c
    ensures l.orders[c].status.Terminal() ==> news == [] && broker[rec.number].LocalStatus().Terminal()
  {
    hide Mirrors;
    ReadyFacts(l, broker, c, rec);
    if |news| == 1 {
      InsertFillRows(l.fills, news[0]);
    }
  }

  /** What a sale's row takes in is what it recorded. */
  lemma SalePending(l: Ledger, l1: Ledger, broker: map<string, BrokerOrder>, c: string, rec: Record, news: seq<Fill>)
    requires Adopted(l, l1, broker, c, rec, news) && SalesTakenIn(l) && l.orders[c].side == Sell
    ensures Unapplied(l1.fills, l1.applied, c) == news
  {
    NoSalesPending(l, c);
    if |news| == 1 {
      if HasFill(l.applied, news[0].id) {
        AppliedIsFill(l, news[0].id);
      }
      UnappliedInsert(l.fills, l.applied, news[0]);
    }
  }

  /** Taking in what a confirmed sale recorded. */
  lemma SaleTaken(l: Ledger, l2: Ledger, broker: map<string, BrokerOrder>, c: string, local: Order, news: seq<Fill>)
    requires Mirrors(l2, broker) && SalesTakenIn(l) && c in l2.orders && local.side == l2.orders[c].side == Sell
    requires |news| <= 1 && Unapplied(l2.fills, l2.applied, c) == news && l2.applied == l.applied && l2.positions == l.positions
    requires forall g :: g in l2.fills <==> g in l.fills || g in news
    requires forall f :: f in news ==> f.symbol == local.symbol && f.quantity <= OpenQuantity(l.positions, local.symbol)
    ensures var r := MaterializeLocal(l2, c, local);
            && r.Done? && SalesTakenIn(r.value.0)
            && forall s :: OpenQuantity(r.value.0.positions, s)
                           == OpenQuantity(l.positions, s) - (if news != [] && s == local.symbol then news[0].quantity else 0)
  {
    TakeEffect(l2, broker, c, local);
    if news == [] {
      NoSaleEffect(l2, c, local);
    } else {
      assert news == [news[0]];
      assert news[0] in Unapplied(l2.fills, l2.applied, c);
      UnappliedSide(l2, c);
      SaleEffect(l2, broker, c, local, news[0]);
    }
  }

  lemma NewSaleFits(l: Ledger, l1: Ledger, broker: map<string, BrokerOrder>, c: string, rec: Record, news: seq<Fill>)
    requires RowReady(l, broker, c) && l.orders[c].side == Sell && Adopted(l, l1, broker, c, rec, news)
    ensures forall f :: f in news ==>
              f.symbol == l.orders[c].symbol && f.quantity == rec.filled - l.orders[c].filled
              && f.quantity <= OpenQuantity(l.positions, l.orders[c].symbol)
  {
    hide Mirrors;
    AdoptedFacts(l, l1, broker, c, rec, news);
    ReadyFacts(l, broker, c, rec);
  }

  /** A sale's row never fails. */
  lemma SaleRow(p: Progress, l1: Ledger, broker: map<string, BrokerOrder>, c: string, rec: Record, now: int, news: seq<Fill>)
    requires RowReady(p.ledger, broker, c) && p.ledger.orders[c].side == Sell && Adopted(p.ledger, l1, broker, c, rec, news)
    ensures var q := AdoptStatus(p.(ledger := l1), c, p.ledger.orders[c], rec, now);
            q.error == p.error && RowDone(p.ledger, q.ledger, broker, c, rec, now) && q.tally.reasons == p.tally.reasons
            && Unapplied(q.ledger.fills, q.ledger.applied, c) == []
  {
    hide Mirrors, Adopts, AdoptStatus, MaterializeLocal, Unapplied, OpenQuantity, NothingElsePending;
    var l, local := p.ledger, p.ledger.orders[c];
    AdoptedFacts(l, l1, broker, c, rec, news);
    ReadyFacts(l, broker, c, rec);
    ConfirmTruth(p.(ledger := l1), broker, c, local, rec, now);
    SalePending(l, l1, broker, c, rec, news);
    NewSaleFits(l, l1, broker, c, rec, news);
    var l2 := Confirmed(l1, c, local, rec, now);
    SaleTaken(l, l2, broker, c, local, news);
    TakeEffect(l2, broker, c, local);
    SaleMoved(l, MaterializeLocal(l2, c, local).value.0, c, rec, news);
    PendingStays(l, MaterializeLocal(l2, c, local).value.0, c, news);
  }

  lemma SaleMoved(l: Ledger, m: Ledger, c: string, rec: Record, news: seq<Fill>)
    requires c in l.orders && c in m.orders && l.orders[c].side == Sell && m.orders[c].filled == rec.filled
    requires news == [] ==> rec.filled == l.orders[c].filled
    requires news != [] ==> news[0].quantity == rec.filled - l.orders[c].filled
    requires forall s :: OpenQuantity(m.positions, s)
                         == OpenQuantity(l.positions, s) - (if news != [] && s == l.orders[c].symbol then news[0].quantity else 0)
    ensures forall s :: OpenQuantity(m.positions, s) >= OpenQuantity(l.positions, s) - SoldSince(l, m, c, s)
  {
  }

  /** A purchase's row may fail to take its fills in, and then says so. */
  lemma PurchaseRow(p: Progress, l1: Ledger, broker: map<string, BrokerOrder>, c: string, rec: Record, now: int, news: seq<Fill>)
    requires RowReady(p.ledger, broker, c) && p.ledger.orders[c].side == Buy && Adopted(p.ledger, l1, broker, c, rec, news)
    ensures var q := AdoptStatus(p.(ledger := l1), c, p.ledger.orders[c], rec, now);
            && q.error == p.error && RowDone(p.ledger, q.ledger, broker, c, rec, now)
            && (q.tally.reasons == p.tally.reasons || q.tally.reasons == p.tally.reasons + [MaterializeFailed(c)])
            && (q.tally.reasons == p.tally.reasons ==> Unapplied(q.ledger.fills, q.ledger.applied, c) == [])
  {
    hide Mirrors, Adopted, AdoptStatus, MaterializeLocal, Unapplied, OpenQuantity, NothingElsePending, SoldSince, Level, SalesTakenIn, SameIdentity, RowWritten, RowDone, Confirmed;
    var l, local := p.ledger, p.ledger.orders[c];
    AdoptedReady(l, l1, broker, c, rec, news);
    AdoptedFacts(l, l1, broker, c, rec, news);
    ConfirmTruth(p.(ledger := l1), broker, c, local, rec, now);
    ConfirmedRow(l, l1, broker, c, rec, now, news);
    var l2 := Confirmed(l1, c, local, rec, now);
    var m := After(l2, MaterializeLocal(l2, c, local));
    TakeEffect(l2, broker, c, local);
    PendingStays(l, m, c, news);
    NoSaleSince(l, m, c);
    SalesStillTaken(l, m, news);
    WrittenIsDone(l, m, broker, c, rec, now);
  }

  lemma AdoptedReady(l: Ledger, l1: Ledger, broker: map<string, BrokerOrder>, c: string, rec: Record, news: seq<Fill>)
    requires Adopted(l, l1, broker, c, rec, news)
    ensures Ready(l1, broker, c, rec) && Level(l1.orders[c], rec) && rec.number in broker && c in l.orders
  {
    hide Mirrors;
  }

  /** What the status write leaves of the row, told from the row the pass selected. */
  ghost predicate RowWritten(o: Order, p: Order, b: BrokerOrder, rec: Record, now: int) {
    && SameIdentity(o, p) && o.filled <= p.filled && (o.status.Terminal() ==> p.status.Terminal() && p.filled == o.filled)
    && Level(p, rec) && Stamped(p, now) && p.status == NextStatus(o, b.LocalStatus())
  }

  lemma ConfirmedRow(l: Ledger, l1: Ledger, broker: map<string, BrokerOrder>, c: string, rec: Record, now: int, news: seq<Fill>)
    requires Adopted(l, l1, broker, c, rec, news) && LocalStatus(rec.status).Some?
    ensures var l2 := Confirmed(l1, c, l.orders[c], rec, now);
            && l2.fills == l1.fills && l2.applied == l1.applied && l2.positions == l1.positions && l2.decisions == l1.decisions
            && c in l2.orders && l2.orders == l.orders[c := l2.orders[c]] && l2.orders[c].side == l.orders[c].side
            && RowWritten(l.orders[c], l2.orders[c], broker[rec.number], rec, now)
  {
    hide Mirrors, Adopts, Unsent;
    AdoptedFacts(l, l1, broker, c, rec, news);
    ReadyFacts(l, broker, c, rec);
  }

  lemma WrittenIsDone(l: Ledger, m: Ledger, broker: map<string, BrokerOrder>, c: string, rec: Record, now: int)
    requires c in l.orders && c in m.orders && rec.number in broker && Mirrors(m, broker) && SalesTakenIn(m)
    requires m.decisions == l.decisions && m.orders == l.orders[c := m.orders[c]] && RowWritten(l.orders[c], m.orders[c], broker[rec.number], rec, now)
    requires forall s :: OpenQuantity(m.positions, s) >= OpenQuantity(l.positions, s) - SoldSince(l, m, c, s)
    requires NothingElsePending(l, m, c)
    ensures RowDone(l, m, broker, c, rec, now)
  {
    hide Mirrors, SalesTakenIn, OpenQuantity, SoldSince, NothingElsePending;
  }

  lemma SalesStillTaken(l: Ledger, m: Ledger, news: seq<Fill>)
    requires SalesTakenIn(l) && (forall g :: g in m.fills ==> g in l.fills || g in news) && forall g :: g in news ==> g.side == Buy
    requires forall id :: HasFill(l.applied, id) ==> HasFill(m.applied, id)
    ensures SalesTakenIn(m)
  {
  }

  lemma NoSaleSince(l: Ledger, m: Ledger, c: string)
    requires c in l.orders && c in m.orders && l.orders[c].side == Buy
    requires forall s :: OpenQuantity(m.positions, s) >= OpenQuantity(l.positions, s)
    ensures forall s :: OpenQuantity(m.positions, s) >= OpenQuantity(l.positions, s) - SoldSince(l, m, c, s)
  {
    hide OpenQuantity;
  }

  /** The reasons a truthful pass can have for not dealing with an order fully. */
  ghost predicate Clean(reasons: seq<Reason>) {
    forall r :: r in reasons ==> r.LocalUnknown?
  }

  /** The reasons truthful records leave room for: no identity, count or
      regression complaint, no refused fill, and no sale left untaken. */
  ghost predicate Honest(l: Ledger, r: Reason) {
    match r
    case LocalUnknown(_) => true
    case Unconfirmed(_) => true
    case RecordMissing(_) => true
    case MaterializeFailed(c) => c in l.orders && l.orders[c].side == Buy
    case _ => false
  }

  /** A row without a record, or with nothing yet to look up, is left alone. */
  ghost predicate RowResult(p: Progress, q: Progress, broker: map<string, BrokerOrder>, c: string, records: seq<Record>, now: int)
    requires c in p.ledger.orders && Truthful(records, broker)
  {
    var rec := RecordOf(p.ledger.orders[c], records);
    && q.error == p.error
    && (forall r :: r in p.tally.reasons ==> r in q.tally.reasons)
    && (forall r :: r in q.tally.reasons ==> r in p.tally.reasons || Honest(p.ledger, r))
    && (if rec.None? then q.ledger == p.ledger && !Clean(q.tally.reasons)
        else RowDone(p.ledger, q.ledger, broker, c, rec.value, now)
             && (Clean(q.tally.reasons) ==> Unapplied(q.ledger.fills, q.ledger.applied, c) == []))
  }

  lemma AdoptRow(p: Progress, broker: map<string, BrokerOrder>, c: string, rec: Record, now: int)
    returns (l1: Ledger, news: seq<Fill>)
    requires Ready(p.ledger, broker, c, rec)
    ensures Adopted(p.ledger, l1, broker, c, rec, news)
    ensures p.ledger.orders[c].filled <= rec.filled
    ensures var r := AdoptFills(p, c, p.ledger.orders[c], rec, now);
            r.1 && r.0.ledger == l1 && r.0.error == p.error && r.0.tally.reasons == p.tally.reasons
  {
    var l := p.ledger;
    ReadyFacts(l, broker, c, rec);
    if rec.filled == l.orders[c].filled {
      l1, news := l, [];
      MeansEqual(l.orders[c].average, rec.average, rec.filled, broker[rec.number].notional);
    } else {
      var f := AdoptFillsTruth(p, broker, c, rec, now);
      l1, news := Recorded(l, f), [f];
      AdoptingMirrors(l, broker, c, rec, f);
    }
  }

  lemma RowTruth(p: Progress, broker: map<string, BrokerOrder>, c: string, records: seq<Record>, now: int)
    requires p.error.None? && RowReady(p.ledger, broker, c) && Truthful(records, broker)
    ensures RowResult(p, ReconcileRow(p, c, p.ledger.orders[c], records, now), broker, c, records, now)
  {
    hide Mirrors, AdoptFills, AdoptStatus, RowDone, Adopted, Unapplied, SalesTakenIn, SaleCovered;
    var local := p.ledger.orders[c];
    var p1 := if local.status == Unknown then p.Because(LocalUnknown(c)) else p;
    var q := ReconcileRow(p, c, local, records, now);
    var found := RecordOf(local, records);
    if found.None? {
      NotClean(p1.tally.reasons, q.tally.reasons[|p1.tally.reasons|]);
    } else {
      var rec := found.value;
      assert Placed(p.ledger, c, broker) by { assert RowReady(p.ledger, broker, c); PlacedIn(p.ledger, broker, c); }
      assert Ready(p1.ledger, broker, c, rec);
      ReadyFacts(p.ledger, broker, c, rec);
      var l1, news := AdoptRow(p1, broker, c, rec, now);
      var p2 := AdoptFills(p1, c, local, rec, now).0;
      if local.side == Sell {
        SaleRow(p2.(ledger := p.ledger), l1, broker, c, rec, now, news);
      } else {
        PurchaseRow(p2.(ledger := p.ledger), l1, broker, c, rec, now, news);
      }
      assert p2.(ledger := p.ledger).(ledger := l1) == p2;
      assert q == AdoptStatus(p2, c, local, rec, now);
      if q.tally.reasons == p2.tally.reasons + [MaterializeFailed(c)] {
        NotClean(p2.tally.reasons, MaterializeFailed(c));
      }
    }
  }

  lemma PlacedIn(l: Ledger, broker: map<string, BrokerOrder>, c: string)
    requires Mirrors(l, broker) && c in l.orders
    ensures Placed(l, c, broker) && !Blank(c) && StockCode(l.orders[c].symbol)
  {
  }

  lemma NotClean(reasons: seq<Reason>, r: Reason)
    requires !r.LocalUnknown?
    ensures !Clean(reasons + [r])
  {
    assert r in reasons + [r];
  }
}
