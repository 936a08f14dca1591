/** The whole-account consequence: in no run has the broker ever sold more of a
    symbol under the service's orders than it has bought, crashes and lost
    replies included. */
module NeverShort {
  import opened Wrappers
  import opened LedgerTables
  import opened LedgerInvariant
  import opened LedgerRuns
  import opened TruthfulBroker
  import opened ReconcileTruth
  import opened PassTruth
  import opened ServiceRun
  import opened ServiceSafety
  import opened ServiceTheorems

  // ------------------------------------------------ sums over client order ids

  ghost function Sum(cs: seq<string>, f: string -> int): int {
    if cs == [] then 0 else f(cs[0]) + Sum(cs[1..], f)
  }

  lemma {:induction false} SumAtMost(cs: seq<string>, f: string -> int, g: string -> int)
    requires forall c :: c in cs ==> f(c) <= g(c)
    ensures Sum(cs, f) <= Sum(cs, g)
  {
    if cs != [] {
      assert cs[0] in cs && forall c :: c in cs[1..] ==> c in cs;
      SumAtMost(cs[1..], f, g);
    }
  }

  ghost function Plus(f: string -> int, g: string -> int): string -> int {
    c => f(c) + g(c)
  }

  lemma {:induction false} SumPlus(cs: seq<string>, f: string -> int, g: string -> int)
    ensures Sum(cs, Plus(f, g)) == Sum(cs, f) + Sum(cs, g)
  {
    if cs != [] {
      SumPlus(cs[1..], f, g);
    }
  }

  /** A weight that is zero everywhere, or everywhere but at one id. */
  lemma {:induction false} SumOfOne(cs: seq<string>, f: string -> int, c: string)
    requires NoRepeats(cs) && forall d :: d in cs && d != c ==> f(d) == 0
    ensures Sum(cs, f) == if c in cs then f(c) else 0
  {
    if cs != [] {
      assert cs[0] in cs && forall d :: d in cs[1..] ==> d in cs;
      SumOfOne(cs[1..], f, c);
      if cs[0] == c {
        assert c !in cs[1..];
      }
    }
  }

  // ------------------------------------------------------- fills of one side

  predicate Matches(o: Order, symbol: string, side: Side) {
    o.symbol == symbol && o.side == side
  }

  function OfSide(symbol: string, side: Side): Fill -> int {
    (f: Fill) => if f.symbol == symbol && f.side == side then f.quantity else 0
  }

  lemma {:induction false} NetIsDifference(fs: seq<Fill>, symbol: string)
    ensures Total(fs, NetOf(symbol)) == Total(fs, OfSide(symbol, Buy)) - Total(fs, OfSide(symbol, Sell))
  {
    if fs != [] {
      NetIsDifference(fs[1..], symbol);
    }
  }

  /** Shares of the fills of an order that matches. */
  ghost function SharesIn(fs: seq<Fill>, orders: map<string, Order>, symbol: string, side: Side): string -> int {
    c => if c in orders && Matches(orders[c], symbol, side) then Total(fs, SharesOf(c)) else 0
  }

  ghost function ShareOf(f: Fill, orders: map<string, Order>, symbol: string, side: Side): string -> int {
    c => if c in orders && Matches(orders[c], symbol, side) then SharesOf(c)(f) else 0
  }

  /** Summing the fills order by order, or all at once. */
  lemma {:induction false} FillsByOrder(fs: seq<Fill>, orders: map<string, Order>, cs: seq<string>, symbol: string, side: Side)
    requires NoRepeats(cs)
    requires forall f :: f in fs ==> f.client in orders && f.client in cs
                                     && f.symbol == orders[f.client].symbol && f.side == orders[f.client].side
    ensures Sum(cs, SharesIn(fs, orders, symbol, side)) == Total(fs, OfSide(symbol, side))
  {
    if fs == [] {
      SumOfOne(cs, SharesIn(fs, orders, symbol, side), "");
    } else {
      var f, rest := fs[0], fs[1..];
      assert f in fs && forall g :: g in rest ==> g in fs;
      FillsByOrder(rest, orders, cs, symbol, side);
      var one := ShareOf(f, orders, symbol, side);
      SumOfOne(cs, one, f.client);
      SumPlus(cs, one, SharesIn(rest, orders, symbol, side));
      SumAtMost(cs, SharesIn(fs, orders, symbol, side), Plus(one, SharesIn(rest, orders, symbol, side)));
      SumAtMost(cs, Plus(one, SharesIn(rest, orders, symbol, side)), SharesIn(fs, orders, symbol, side));
    }
  }

  // --------------------------------------------- taken-in fills among recorded

  ghost function TakenOf(fs: seq<Fill>, applied: seq<Fill>): (r: seq<Fill>)
    ensures forall f :: f in r <==> f in fs && f in applied
  {
    if fs == [] then []
    else
      var rest := TakenOf(fs[1..], applied);
      assert forall f :: f in fs <==> f == fs[0] || f in fs[1..];
      if fs[0] in applied then [fs[0]] + rest else rest
  }

  lemma {:induction false} TakenUnique(fs: seq<Fill>, applied: seq<Fill>)
    requires UniqueIds(fs)
    ensures UniqueIds(TakenOf(fs, applied))
  {
    if fs != [] {
      TakenUnique(fs[1..], applied);
      assert forall f :: f in fs[1..] ==> f.id != fs[0].id;
    }
  }

  lemma {:induction false} TakenAtMost(fs: seq<Fill>, applied: seq<Fill>, symbol: string, side: Side)
    ensures Total(TakenOf(fs, applied), OfSide(symbol, side)) <= Total(fs, OfSide(symbol, side))
    ensures (forall f :: f in fs && f.side == side ==> f in applied) ==>
              Total(TakenOf(fs, applied), OfSide(symbol, side)) == Total(fs, OfSide(symbol, side))
  {
    if fs != [] {
      TakenAtMost(fs[1..], applied, symbol, side);
      assert forall f :: f in fs[1..] ==> f in fs;
      assert fs[0] in fs;
      var rest := TakenOf(fs[1..], applied);
      assert ([fs[0]] + rest)[1..] == rest;
    }
  }

  lemma TakenIsApplied(l: Ledger, w: Fill -> int)
    requires FillRows(l) && AppliedRows(l)
    ensures Total(TakenOf(l.fills, l.applied), w) == Total(l.applied, w)
  {
    var taken := TakenOf(l.fills, l.applied);
    TakenUnique(l.fills, l.applied);
    forall f: Fill
      ensures multiset(taken)[f] == multiset(l.applied)[f]
    {
      if f in l.applied {
        UniqueIdsCountOne(l.applied, f);
        UniqueIdsCountOne(taken, f);
      }
    }
    TotalOfMultiset(taken, l.applied, w);
  }

  // ---------------------------------------------------- order by order bounds

  /** Shares the broker has filled under a client order id. */
  ghost function AtBroker(broker: map<string, BrokerOrder>, c: string): int {
    if exists n :: n in broker && broker[n].client == c
    then var n :| n in broker && broker[n].client == c; broker[n].filled
    else 0
  }

  /** The same for orders of one symbol and side, and what the ledger has of it. */
  ghost function FilledAtBroker(w: World, symbol: string, side: Side): string -> int {
    c => if c in w.ledger.orders && Matches(w.ledger.orders[c], symbol, side) then AtBroker(w.broker, c) else 0
  }

  ghost function FilledLocally(w: World, symbol: string, side: Side): string -> int {
    c => if c in w.ledger.orders && Matches(w.ledger.orders[c], symbol, side) then w.ledger.orders[c].filled else 0
  }

  /** Shares a live sale may still sell. */
  ghost function Unsold(w: World, symbol: string): string -> int {
    c => if c in w.ledger.orders && w.ledger.orders[c].symbol == symbol && LiveSale(w.ledger.orders[c])
         then w.ledger.orders[c].requested - w.ledger.orders[c].filled else 0
  }

  lemma AtBrokerIs(w: World, n: string)
    requires BrokerBook(w) && n in w.broker
    ensures AtBroker(w.broker, w.broker[n].client) == w.broker[n].filled
  {
  }

  lemma SafeOrder(w: World, c: string)
    requires Safe(w) && c in w.ledger.orders
    ensures Placed(w.ledger, c, w.broker) && w.ledger.orders[c].filled <= w.ledger.orders[c].requested
    ensures forall n :: n in w.broker ==> w.broker[n].Sound()
  {
    hide Placed, SalesTakenIn, OneLiveSale, CoveredSales, OpenQuantity, ExitsBounded, BrokerBook;
    var l := w.ledger;
    assert Agrees(l.orders[c], Total(l.fills, SharesOf(c)), Worth(l.fills, MoneyOf(c)));
  }

  lemma OrderBounds(w: World, c: string)
    requires Safe(w) && c in w.ledger.orders
    ensures var o := w.ledger.orders[c];
            && o.filled <= AtBroker(w.broker, c)
            && AtBroker(w.broker, c) <= (if o.status.Terminal() then o.filled else o.requested)
  {
    hide PassReady, OpenQuantity, ExitsBounded, CallLog, TraderOk;
    SafeOrder(w, c);
    if exists n :: n in w.broker && w.broker[n].client == c {
      var n :| n in w.broker && w.broker[n].client == c;
      AtBrokerIs(w, n);
      assert BrokerKnown(w, n);
    }
  }

  // ------------------------------------------------------------ the theorem

  lemma FilledOrderWasPlaced(l: Ledger, broker: map<string, BrokerOrder>, f: Fill)
    requires Mirrors(l, broker) && f in l.fills
    ensures f.client in l.orders && l.orders[f.client].brokerId.Some?
  {
    var c := f.client;
    PlacedIn(l, broker, c);
    assert Agrees(l.orders[c], Total(l.fills, SharesOf(c)), Worth(l.fills, MoneyOf(c)));
    SomeShares(l.fills, f);
  }

  lemma {:induction false} SomeShares(fs: seq<Fill>, f: Fill)
    requires f in fs
    ensures Total(fs, SharesOf(f.client)) > 0
  {
    NoNegativeShares(fs[1..], f.client);
    if f != fs[0] {
      SomeShares(fs[1..], f);
    }
  }

  lemma {:induction false} NoNegativeShares(fs: seq<Fill>, c: string)
    ensures Total(fs, SharesOf(c)) >= 0
  {
    if fs != [] {
      NoNegativeShares(fs[1..], c);
    }
  }

  /** What the ledger has filled, order by order, is what its fills say. */
  lemma LocalTotals(w: World, symbol: string, side: Side)
    requires Safe(w)
    ensures Sum(w.calls, FilledLocally(w, symbol, side)) == Total(w.ledger.fills, OfSide(symbol, side))
  {
    hide SalesTakenIn, OpenQuantity, ExitsBounded, CoveredSales, OneLiveSale;
    var l := w.ledger;
    forall f | f in l.fills
      ensures f.client in l.orders && f.client in w.calls
              && f.symbol == l.orders[f.client].symbol && f.side == l.orders[f.client].side
    {
      FilledOrderWasPlaced(l, w.broker, f);
      assert f.client in Reached(w);
    }
    FillsByOrder(l.fills, l.orders, w.calls, symbol, side);
    forall c | c in w.calls
      ensures FilledLocally(w, symbol, side)(c) == SharesIn(l.fills, l.orders, symbol, side)(c)
    {
      assert c in l.orders ==> Agrees(l.orders[c], Total(l.fills, SharesOf(c)), Worth(l.fills, MoneyOf(c)));
    }
    SumAtMost(w.calls, FilledLocally(w, symbol, side), SharesIn(l.fills, l.orders, symbol, side));
    SumAtMost(w.calls, SharesIn(l.fills, l.orders, symbol, side), FilledLocally(w, symbol, side));
  }

  /** The symbol's one live sale asks for no more than the open position. */
  lemma UnsoldIsCovered(w: World, symbol: string)
    requires Safe(w)
    ensures Sum(w.calls, Unsold(w, symbol)) <= OpenQuantity(w.ledger.positions, symbol)
  {
    hide Mirrors, SalesTakenIn, OpenQuantity, ExitsBounded;
    var l := w.ledger;
    if c :| c in w.calls && Unsold(w, symbol)(c) != 0 {
      SumOfOne(w.calls, Unsold(w, symbol), c);
      assert c in Reached(w) && SaleCovered(l, c);
    } else {
      SumOfOne(w.calls, Unsold(w, symbol), "");
    }
  }

  /** What the ledger has of a symbol: bought at least what it holds and sold. */
  lemma HeldIsDifference(l: Ledger, symbol: string)
    requires LedgerOk(l) && SalesTakenIn(l)
    ensures OpenQuantity(l.positions, symbol) + Total(l.fills, OfSide(symbol, Sell)) <= Total(l.fills, OfSide(symbol, Buy))
  {
    OpenQuantityIsNet(l, symbol);
    NetIsDifference(l.applied, symbol);
    forall f | f in l.fills && f.side == Sell
      ensures f in l.applied
    {
      var i :| 0 <= i < |l.applied| && l.applied[i].id == f.id;
      assert l.applied[i] in l.applied;
      SameIdSameFill(l.fills, l.applied[i], f);
    }
    TakenAtMost(l.fills, l.applied, symbol, Buy);
    TakenAtMost(l.fills, l.applied, symbol, Sell);
    TakenIsApplied(l, OfSide(symbol, Buy));
    TakenIsApplied(l, OfSide(symbol, Sell));
  }

  lemma SafeNeverShort(w: World, symbol: string)
    requires Safe(w)
    ensures Sum(w.calls, FilledAtBroker(w, symbol, Sell)) <= Sum(w.calls, FilledAtBroker(w, symbol, Buy))
  {
    hide Mirrors, OpenQuantity, ExitsBounded, AtBroker;
    var sold := Plus(FilledLocally(w, symbol, Sell), Unsold(w, symbol));
    forall c | c in w.calls
      ensures FilledAtBroker(w, symbol, Sell)(c) <= sold(c)
      ensures FilledLocally(w, symbol, Buy)(c) <= FilledAtBroker(w, symbol, Buy)(c)
    {
      OrderBounds(w, c);
    }
    SumAtMost(w.calls, FilledAtBroker(w, symbol, Sell), sold);
    SumPlus(w.calls, FilledLocally(w, symbol, Sell), Unsold(w, symbol));
    SumAtMost(w.calls, FilledLocally(w, symbol, Buy), FilledAtBroker(w, symbol, Buy));
    LocalTotals(w, symbol, Sell);
    LocalTotals(w, symbol, Buy);
    UnsoldIsCovered(w, symbol);
    SafeLedger(w);
    HeldIsDifference(w.ledger, symbol);
  }

  lemma SafeLedger(w: World)
    requires Safe(w)
    ensures LedgerOk(w.ledger) && SalesTakenIn(w.ledger)
  {
  }

  /** In every state of every run, crashes and lost replies included, the broker
      has sold no more of a symbol under the service's orders than it has
      bought, and each of its orders was one the service called it with. */
  lemma NeverSoldShort(ws: seq<World>, es: seq<Event>, i: nat, symbol: string)
    requires Run(ws, es) && i < |ws|
    ensures Sum(ws[i].calls, FilledAtBroker(ws[i], symbol, Sell)) <= Sum(ws[i].calls, FilledAtBroker(ws[i], symbol, Buy))
    ensures forall n :: n in ws[i].broker ==>
              var b := ws[i].broker[n];
              b.client in ws[i].calls && FilledAtBroker(ws[i], b.symbol, b.side)(b.client) == b.filled
  {
    hide PassReady, CallLog, TraderOk, ExitsBounded, AtBroker;
    EveryRunSafe(ws, es, i);
    SafeNeverShort(ws[i], symbol);
    forall n | n in ws[i].broker
      ensures var b := ws[i].broker[n];
              b.client in ws[i].calls && FilledAtBroker(ws[i], b.symbol, b.side)(b.client) == b.filled
    {
      assert BrokerKnown(ws[i], n);
      AtBrokerIs(ws[i], n);
    }
  }
}
