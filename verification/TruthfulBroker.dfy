/** A broker that tells the truth, and what one reconciled row does then. The
    broker's own order is ghost state: cumulative fills only grow, their value
    grows with them, and a finished order stays as it is. */
module TruthfulBroker {
  import opened Wrappers
  import opened Text
  import opened LedgerTables
  import opened LedgerInvariant
  import opened LedgerRuns
  import opened BrokerRecords
  import opened Reconciliation

  datatype Closed = WasCancelled | WasRejected

  datatype BrokerOrder = BrokerOrder(
    client: string, symbol: string, side: Side, quantity: Count, filled: nat, notional: real, closed: Option<Closed>)
  {
    predicate Finished() {
      closed.Some? || filled == quantity
    }

    predicate Sound() {
      filled <= quantity && (if filled == 0 then notional == 0.0 else notional > 0.0)
    }

    function Status(): BrokerStatus {
      match closed
      case Some(WasCancelled) => CancelConfirmed
      case Some(WasRejected) => RejectConfirmed
      case None =>
        if filled == quantity then FullyFilled else if filled > 0 then PartlyFilled else Unfilled
    }

    function LocalStatus(): LedgerTables.Status {
      match closed
      case Some(WasCancelled) => Cancelled
      case Some(WasRejected) => Rejected
      case None => if filled == quantity then Filled else if filled > 0 then PartiallyFilled else Acknowledged
    }
  }

  /** The record shows the order as it is: average times filled is the notional,
      and there is no average while nothing is filled. */
  ghost predicate Reports(rec: Record, b: BrokerOrder) {
    && rec.symbol == b.symbol && rec.side == Some(b.side) && rec.ordered == b.quantity
    && rec.filled == b.filled && rec.status == b.Status() && MeanIs(rec.average, b.filled, b.notional)
  }

  /** A snapshot may leave orders out, but what it shows is true. */
  ghost predicate Truthful(records: seq<Record>, broker: map<string, BrokerOrder>) {
    forall rec :: rec in records ==> rec.number in broker && Reports(rec, broker[rec.number])
  }

  /** The ledger's count and money for an order are a past value of the broker's. */
  ghost predicate Behind(filled: nat, money: real, b: BrokerOrder) {
    && filled <= b.filled
    && (filled == b.filled ==> money == b.notional)
    && (filled < b.filled ==> money < b.notional)
  }

  ghost predicate Mirror(o: Order, c: string, money: real, b: BrokerOrder) {
    && b.client == c && b.symbol == o.symbol && b.side == o.side && b.quantity == o.requested
    && Behind(o.filled, money, b)
    && (o.status.Terminal() ==> b.Finished() && o.filled == b.filled)
  }

  ghost predicate RestId(id: string, client: string, bound: nat) {
    exists k: nat :: k <= bound && id == RestFillId(client, k)
  }

  /** Each order with a broker number is behind that broker order; an order
      without one has no fills; every fill came from a reconcile pass. */
  ghost predicate Mirrors(l: Ledger, broker: map<string, BrokerOrder>) {
    && LedgerOk(l)
    && (forall n :: n in broker ==> !Blank(n) && broker[n].Sound())
    && (forall c :: c in l.orders ==> !Blank(c) && StockCode(l.orders[c].symbol))
    && (forall c :: c in l.orders ==> Placed(l, c, broker))
    && (forall f :: f in l.fills ==> RestId(f.id, f.client, l.orders[f.client].filled))
  }

  predicate Unsent(s: Status) {
    s == Intent || s == Submitting
  }

  ghost predicate Placed(l: Ledger, c: string, broker: map<string, BrokerOrder>)
    requires c in l.orders
  {
    var o := l.orders[c];
    if o.brokerId.None? then o.filled == 0 && (Unsent(o.status) || o.status == Unknown)
    else o.brokerId.value in broker && !Unsent(o.status) && Mirror(o, c, Worth(l.fills, MoneyOf(c)), broker[o.brokerId.value])
  }

  /** Every sold share has left a position. */
  ghost predicate SalesTakenIn(l: Ledger) {
    forall f :: f in l.fills && f.side == Sell ==> HasFill(l.applied, f.id)
  }

  // ------------------------------------------------------------- fill ids

  lemma DecimalInjective(n: nat, m: nat)
    requires Decimal(n) == Decimal(m)
    ensures n == m
  {
    DecimalReadsBack(n);
    DecimalReadsBack(m);
  }

  /** A cumulative count names a fill of an order uniquely. */
  lemma RestFillIdInjective(c: string, n: nat, d: string, m: nat)
    requires RestFillId(c, n) == RestFillId(d, m)
    ensures c == d && n == m
  {
    var head, tag := "reconcile:", ":cum:";
    var a, b := RestFillId(c, n), RestFillId(d, m);
    var x, y := Decimal(n), Decimal(m);
    assert a == head + c + tag + x && b == head + d + tag + y;
    if |x| < |y| {
      DigitsEndText(head + c + tag, x, head + d + tag, y);
    } else if |y| < |x| {
      DigitsEndText(head + d + tag, y, head + c + tag, x);
    }
    assert a[|a| - |x|..] == x && b[|b| - |y|..] == y;
    DecimalInjective(n, m);
    assert a[|head|..|a| - |x| - |tag|] == c && b[|head|..|b| - |y| - |tag|] == d;
  }

  /** A colon and a digit tell two texts apart. */
  lemma DigitsEndText(p: string, x: string, q: string, y: string)
    requires |p| + |x| == |q| + |y| && |x| < |y| && p != [] && p[|p| - 1] == ':'
    requires forall i :: 0 <= i < |y| ==> IsDigit(y[i])
    ensures p + x != q + y
  {
    var i := |p| - 1;
    assert (p + x)[i] == ':';
    assert (q + y)[i] == y[i - |q|];
  }

  lemma FreshRestId(l: Ledger, broker: map<string, BrokerOrder>, c: string, cumulative: nat)
    requires Mirrors(l, broker) && c in l.orders && l.orders[c].filled < cumulative
    ensures !HasFill(l.fills, RestFillId(c, cumulative))
  {
    var id := RestFillId(c, cumulative);
    if HasFill(l.fills, id) {
      var i :| 0 <= i < |l.fills| && l.fills[i].id == id;
      var f := l.fills[i];
      assert f in l.fills;
      var k: nat :| k <= l.orders[f.client].filled && f.id == RestFillId(f.client, k);
      RestFillIdInjective(f.client, k, c, cumulative);
      assert false;
    }
  }

  lemma RestFillIdNotBlank(c: string, n: nat)
    ensures !Blank(RestFillId(c, n))
  {
    assert RestFillId(c, n)[0] == 'r';
  }

  // ---------------------------------------------------- adopting the shares

  lemma MeanPositive(average: Option<real>, shares: int, money: real)
    requires MeanIs(average, shares, money) && shares > 0 && money > 0.0
    ensures average.Some? && average.value > 0.0
  {
  }

  lemma MeansEqual(a: Option<real>, b: Option<real>, shares: int, money: real)
    requires MeanIs(a, shares, money) && MeanIs(b, shares, money)
    ensures a == b
  {
    if shares != 0 {
      QuotientOf(a.value, shares as real, money);
      QuotientOf(b.value, shares as real, money);
    }
  }

  /** The derived price is positive and accounts for exactly the money the
      broker has added since. */
  lemma IncrementIsExact(o: Order, money: real, rec: Record, b: BrokerOrder) returns (price: Price)
    requires MeanIs(o.average, o.filled, money) && Reports(rec, b) && b.Sound()
    requires o.filled < b.filled && money < b.notional
    ensures IncrementalPrice(o, rec) == Done(price)
    ensures Times(price, rec.filled - o.filled) == b.notional - money
  {
    MeanPositive(rec.average, b.filled, b.notional);
    if o.filled > 0 {
      assert rec.average.value * rec.filled as real == b.notional;
      assert o.average.value * o.filled as real == money;
      DividedTimes(b.notional - money, (rec.filled - o.filled) as real);
    }
    price := IncrementalPrice(o, rec).value;
  }

  lemma DividedTimes(x: real, d: real)
    requires d > 0.0
    ensures x / d * d == x
    ensures x > 0.0 ==> x / d > 0.0
  {
  }

  ghost predicate Ready(l: Ledger, broker: map<string, BrokerOrder>, c: string, rec: Record) {
    && Mirrors(l, broker) && c in l.orders && l.orders[c].brokerId == Some(rec.number)
    && rec.number in broker && Reports(rec, broker[rec.number])
  }

  function AdoptedFill(l: Ledger, c: string, rec: Record, price: Price, now: int): Fill
    requires c in l.orders && l.orders[c].filled < rec.filled
  {
    var o := l.orders[c];
    Fill(RestFillId(c, rec.filled), c, Some(rec.number), o.symbol, o.side, rec.filled - o.filled, price, now, now)
  }

  lemma ReadyFacts(l: Ledger, broker: map<string, BrokerOrder>, c: string, rec: Record)
    requires Ready(l, broker, c, rec)
    ensures var o, b, money := l.orders[c], broker[rec.number], Worth(l.fills, MoneyOf(c));
            && MeanIs(o.average, o.filled, money) && o.filled <= o.requested
            && b.Sound() && Reports(rec, b) && Mirror(o, c, money, b) && rec.filled == b.filled <= o.requested
            && !Blank(c) && !Blank(rec.number) && StockCode(o.symbol)
            && rec.symbol == o.symbol && rec.side == Some(o.side) && rec.ordered == o.requested
  {
    assert Placed(l, c, broker);
    assert Agrees(l.orders[c], Total(l.fills, SharesOf(c)), Worth(l.fills, MoneyOf(c)));
  }

  lemma ApplyFillAccepts(l: Ledger, r: FillRequest)
    requires r.WellFormed() && r.client in l.orders && Fits(l, RowOf(l, r)) && r.id == RowOf(l, r).id
    requires r.symbol == Some(l.orders[r.client].symbol) && r.side == Some(l.orders[r.client].side)
    requires r.brokerId == l.orders[r.client].brokerId && r.brokerId.Some?
    ensures ApplyFill(l, r) == Done((Recorded(l, RowOf(l, r)), true))
  {
  }

  /** Newly reported shares are recorded as one fill, at a price that makes the
      order's count and average the broker's. */
  lemma AdoptFillsTruth(p: Progress, broker: map<string, BrokerOrder>, c: string, rec: Record, now: int)
    returns (f: Fill)
    requires Ready(p.ledger, broker, c, rec) && p.ledger.orders[c].filled < rec.filled
    ensures Fits(p.ledger, f) && f.client == c && f.brokerId == Some(rec.number) && f.filledAt == now
    ensures f.quantity == rec.filled - p.ledger.orders[c].filled && f.id == RestFillId(c, rec.filled)
    ensures AdoptFills(p, c, p.ledger.orders[c], rec, now)
            == (p.(ledger := Recorded(p.ledger, f), tally := p.tally.(newFills := p.tally.newFills + 1)), true)
    ensures Worth(p.ledger.fills, MoneyOf(c)) + f.Money() == broker[rec.number].notional
  {
    hide Times, IncrementalPrice, AdoptFills, Mirrors, MeanIs, Worth, Recorded, Blank, StockCode, HasFill;
    var l := p.ledger;
    var o := l.orders[c];
    ReadyFacts(l, broker, c, rec);
    FreshRestId(l, broker, c, rec.filled);
    var price := IncrementIsExact(o, Worth(l.fills, MoneyOf(c)), rec, broker[rec.number]);
    f := AdoptedFill(l, c, rec, price, now);
    AdoptAccepted(p, c, rec, now, f);
  }

  lemma AdoptAccepted(p: Progress, c: string, rec: Record, now: int, f: Fill)
    requires c in p.ledger.orders && p.ledger.orders[c].filled < rec.filled <= p.ledger.orders[c].requested
    requires IncrementalPrice(p.ledger.orders[c], rec) == Done(f.price)
    requires f == AdoptedFill(p.ledger, c, rec, f.price, now) && Fits(p.ledger, f)
    requires var o := p.ledger.orders[c];
             && !Blank(c) && !Blank(rec.number) && StockCode(o.symbol) && o.brokerId == Some(rec.number)
             && rec.symbol == o.symbol && rec.side == Some(o.side)
    ensures AdoptFills(p, c, p.ledger.orders[c], rec, now)
            == (p.(ledger := Recorded(p.ledger, f), tally := p.tally.(newFills := p.tally.newFills + 1)), true)
  {
    var l := p.ledger;
    var r := RestFill(c, rec, rec.filled - l.orders[c].filled, f.price, now);
    RestFillIdNotBlank(c, rec.filled);
    assert RowOf(l, r) == f;
    ApplyFillAccepts(l, r);
  }

  // ------------------------------------------------- what the writes keep

  lemma MoneyElsewhere(l: Ledger, f: Fill, d: string)
    ensures Worth(InsertFill(l.fills, f), MoneyOf(d)) == Worth(l.fills, MoneyOf(d)) + (if f.client == d then f.Money() else 0.0)
  {
    WorthInsert(l.fills, f, MoneyOf(d));
  }

  ghost predicate Adopts(l: Ledger, broker: map<string, BrokerOrder>, c: string, rec: Record, f: Fill) {
    && Ready(l, broker, c, rec) && l.orders[c].filled < rec.filled
    && Fits(l, f) && f.client == c && f.brokerId == Some(rec.number)
    && f.quantity == rec.filled - l.orders[c].filled && f.id == RestFillId(c, rec.filled)
    && Worth(l.fills, MoneyOf(c)) + f.Money() == broker[rec.number].notional
  }

  lemma AdoptingPlaces(l: Ledger, broker: map<string, BrokerOrder>, c: string, rec: Record, f: Fill, d: string)
    requires Adopts(l, broker, c, rec, f) && d in l.orders
    ensures Placed(Recorded(l, f), d, broker)
  {
    ReadyFacts(l, broker, c, rec);
    MoneyElsewhere(l, f, d);
    assert Placed(l, d, broker);
  }

  lemma AdoptingNames(l: Ledger, broker: map<string, BrokerOrder>, c: string, rec: Record, f: Fill, g: Fill)
    requires Adopts(l, broker, c, rec, f) && (g in l.fills || g == f)
    ensures g.client in l.orders && RestId(g.id, g.client, Recorded(l, f).orders[g.client].filled)
  {
    if g == f {
      assert g.id == RestFillId(c, rec.filled);
    } else {
      assert RestId(g.id, g.client, l.orders[g.client].filled);
      var k: nat :| k <= l.orders[g.client].filled && g.id == RestFillId(g.client, k);
      assert k <= Recorded(l, f).orders[g.client].filled;
    }
  }

  lemma AdoptingLevels(l: Ledger, broker: map<string, BrokerOrder>, c: string, rec: Record, f: Fill)
    requires Adopts(l, broker, c, rec, f)
    ensures var o := Recorded(l, f).orders[c]; o.filled == rec.filled && o.average == rec.average
  {
    var n := Recorded(l, f);
    ReadyFacts(l, broker, c, rec);
    RecordingAgrees(l, f, c);
    MoneyElsewhere(l, f, c);
    MeansEqual(n.orders[c].average, rec.average, rec.filled, broker[rec.number].notional);
  }

  /** With the new fill recorded the ledger mirrors the broker, and the order is level with it. */
  lemma AdoptingMirrors(l: Ledger, broker: map<string, BrokerOrder>, c: string, rec: Record, f: Fill)
    requires Adopts(l, broker, c, rec, f)
    ensures Mirrors(Recorded(l, f), broker)
    ensures var o := Recorded(l, f).orders[c]; o.filled == rec.filled && o.average == rec.average
  {
    var n := Recorded(l, f);
    RecordingKeeps(l, f);
    InsertFillRows(l.fills, f);
    AdoptingLevels(l, broker, c, rec, f);
    forall d | d in n.orders
      ensures Placed(n, d, broker)
    {
      AdoptingPlaces(l, broker, c, rec, f, d);
    }
    forall g | g in n.fills
      ensures RestId(g.id, g.client, n.orders[g.client].filled)
    {
      AdoptingNames(l, broker, c, rec, f, g);
    }
  }

  /** Writing a status that the broker order justifies. */
  lemma StatusMirrors(l: Ledger, broker: map<string, BrokerOrder>, c: string, o: Order)
    requires Mirrors(l, broker) && c in l.orders && SameAccount(l.orders[c], o) && o.brokerId == l.orders[c].brokerId
    requires o.status.Terminal() ==>
               o.brokerId.Some? && broker[o.brokerId.value].Finished() && o.filled == broker[o.brokerId.value].filled
    requires if o.brokerId.Some? then !Unsent(o.status) else Unsent(o.status) || o.status == Unknown
    ensures Mirrors(PutOrder(l, c, o), broker)
  {
    var n := PutOrder(l, c, o);
    StatusWriteKeeps(l, c, o);
    forall d | d in n.orders
      ensures Placed(n, d, broker)
    {
      assert Placed(l, d, broker);
    }
    forall g | g in n.fills
      ensures RestId(g.id, g.client, n.orders[g.client].filled)
    {
      assert RestId(g.id, g.client, l.orders[g.client].filled);
    }
  }

  lemma TakingInMirrors(l: Ledger, broker: map<string, BrokerOrder>, c: string, plan: Plan)
    requires Mirrors(l, broker) && Materialize(l, c, plan).Done?
    ensures Mirrors(Materialize(l, c, plan).value.0, broker)
  {
    var n := Materialize(l, c, plan).value.0;
    MaterializeKeeps(l, c, plan);
    forall d | d in n.orders
      ensures Placed(n, d, broker)
    {
      assert Placed(l, d, broker);
    }
  }

  // --------------------------------------------- what taking in does to quantities

  ghost predicate AllOf(fs: seq<Fill>, symbol: string, side: Side) {
    forall f :: f in fs ==> f.symbol == symbol && f.side == side
  }

  lemma {:induction false} NetOfOneSide(fs: seq<Fill>, symbol: string, side: Side, s: string)
    requires AllOf(fs, symbol, side)
    ensures s != symbol ==> Total(fs, NetOf(s)) == 0
    ensures side == Buy ==> Total(fs, NetOf(s)) >= 0
  {
    if fs != [] {
      assert fs[0] in fs && forall f :: f in fs[1..] ==> f in fs;
      NetOfOneSide(fs[1..], symbol, side, s);
    }
  }

  /** A successful materialisation moves every symbol's open quantity by the net
      of the fills it takes in. */
  lemma TakingInMoves(l: Ledger, c: string, plan: Plan, s: string)
    requires LedgerOk(l) && Materialize(l, c, plan).Done?
    ensures OpenQuantity(Materialize(l, c, plan).value.0.positions, s)
            == OpenQuantity(l.positions, s) + Total(Unapplied(l.fills, l.applied, c), NetOf(s))
  {
    MaterializeKeeps(l, c, plan);
    OpenQuantityIsNet(l, s);
    OpenQuantityIsNet(Materialize(l, c, plan).value.0, s);
    TotalAppend(l.applied, Unapplied(l.fills, l.applied, c), NetOf(s));
  }

  lemma UnappliedSide(l: Ledger, c: string)
    requires FillRows(l) && c in l.orders
    ensures AllOf(Unapplied(l.fills, l.applied, c), l.orders[c].symbol, l.orders[c].side)
  {
  }

  lemma {:induction false} UnappliedInsert(fs: seq<Fill>, applied: seq<Fill>, f: Fill)
    requires Unapplied(fs, applied, f.client) == [] && !HasFill(applied, f.id)
    ensures Unapplied(InsertFill(fs, f), applied, f.client) == [f]
  {
    if fs == [] || FillBefore(f, fs[0]) {
      assert ([f] + fs)[1..] == fs;
    } else {
      UnappliedInsert(fs[1..], applied, f);
      assert ([fs[0]] + InsertFill(fs[1..], f))[1..] == InsertFill(fs[1..], f);
    }
  }

  /** A sale that fits the open position is always taken in. */
  lemma SaleFits(l: Ledger, c: string, f: Fill, plan: Plan)
    requires LedgerOk(l) && c in l.orders && !Blank(c) && plan.WellFormed()
    requires Unapplied(l.fills, l.applied, c) == [f] && f.side == Sell
    requires f.quantity <= OpenQuantity(l.positions, f.symbol)
    ensures Materialize(l, c, plan).Done?
  {
    OpenQuantityIsRow(l.positions, f.symbol);
    assert [f][..0] == [];
    assert TakeInAll(l.positions, l.orders[c], c, [f], plan) == TakeIn(l.positions, l.orders[c], c, f, plan);
  }

  lemma NoSalesPending(l: Ledger, c: string)
    requires SalesTakenIn(l) && FillRows(l) && c in l.orders && l.orders[c].side == Sell
    ensures Unapplied(l.fills, l.applied, c) == []
  {
    var fs := Unapplied(l.fills, l.applied, c);
    if fs != [] {
      var f := AMember(fs);
      assert false;
    }
  }

  lemma AMember<T>(s: seq<T>) returns (x: T)
    requires s != []
    ensures x in s
  {
    x := s[0];
  }

  /** Without averages to go by the new shares have the broker's, or the requested price. */
  lemma PriceWithoutAverages(o: Order, rec: Record)
    requires o.filled < rec.filled
    ensures rec.average.None? ==> IncrementalPrice(o, rec) == Done(o.price)
    ensures rec.average.Some? && (o.filled == 0 || o.average.None?) ==> IncrementalPrice(o, rec) == Done(rec.average.value)
  {
  }
}
