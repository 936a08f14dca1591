/** What every transaction keeps: orders agree with their fills, fills are taken
    into positions once each, and a symbol's open position is the average-cost
    holding of everything taken in so far. */
module LedgerInvariant {
  import opened Wrappers
  import opened Text
  import opened LedgerTables
  import opened AverageCost

  // ----------------------------------------------------------------- sums

  lemma {:induction false} TotalInsert(fs: seq<Fill>, f: Fill, w: Fill -> int)
    ensures Total(InsertFill(fs, f), w) == Total(fs, w) + w(f)
  {
    if fs == [] || FillBefore(f, fs[0]) {
      assert ([f] + fs)[1..] == fs;
    } else {
      TotalInsert(fs[1..], f, w);
      assert ([fs[0]] + InsertFill(fs[1..], f))[1..] == InsertFill(fs[1..], f);
    }
  }

  lemma {:induction false} WorthInsert(fs: seq<Fill>, f: Fill, w: Fill -> real)
    ensures Worth(InsertFill(fs, f), w) == Worth(fs, w) + w(f)
  {
    if fs == [] || FillBefore(f, fs[0]) {
      assert ([f] + fs)[1..] == fs;
    } else {
      WorthInsert(fs[1..], f, w);
      assert ([fs[0]] + InsertFill(fs[1..], f))[1..] == InsertFill(fs[1..], f);
    }
  }

  lemma {:induction false} TotalAppend(fs: seq<Fill>, gs: seq<Fill>, w: Fill -> int)
    ensures Total(fs + gs, w) == Total(fs, w) + Total(gs, w)
  {
    if fs == [] {
      assert fs + gs == gs;
    } else {
      TotalAppend(fs[1..], gs, w);
      assert (fs + gs)[1..] == fs[1..] + gs;
    }
  }

  /** A sum does not depend on the order of its terms. */
  lemma {:induction false} TotalOfMultiset(fs: seq<Fill>, gs: seq<Fill>, w: Fill -> int)
    requires multiset(fs) == multiset(gs)
    ensures Total(fs, w) == Total(gs, w)
    decreases |fs|
  {
    if fs == [] {
      assert |gs| == |multiset(gs)| == 0;
    } else {
      assert fs[0] in multiset(gs);
      var i :| 0 <= i < |gs| && gs[i] == fs[0];
      var rest := gs[..i] + gs[i + 1..];
      assert gs == gs[..i] + ([gs[i]] + gs[i + 1..]);
      assert fs == [fs[0]] + fs[1..];
      assert multiset(gs) == multiset(rest) + multiset{fs[0]};
      assert multiset(fs) == multiset(fs[1..]) + multiset{fs[0]};
      assert multiset(fs[1..]) == multiset(fs) - multiset{fs[0]};
      TotalOfMultiset(fs[1..], rest, w);
      TotalAppend(gs[..i], [gs[i]] + gs[i + 1..], w);
      TotalAppend(gs[..i], gs[i + 1..], w);
      assert ([gs[i]] + gs[i + 1..])[1..] == gs[i + 1..];
    }
  }

  // ---------------------------------------------------------- fill ledger

  ghost predicate UniqueIds(fs: seq<Fill>) {
    forall i, j :: 0 <= i < j < |fs| ==> fs[i].id != fs[j].id
  }

  lemma InsertFillRows(fs: seq<Fill>, f: Fill)
    ensures forall g :: g in InsertFill(fs, f) <==> g in fs || g == f
  {
    assert forall g :: g in InsertFill(fs, f) <==> g in multiset(InsertFill(fs, f));
    assert forall g :: g in fs <==> g in multiset(fs);
  }

  lemma {:induction false} UniqueInsert(fs: seq<Fill>, f: Fill)
    requires UniqueIds(fs) && !HasFill(fs, f.id)
    ensures UniqueIds(InsertFill(fs, f))
  {
    if fs != [] && !FillBefore(f, fs[0]) {
      var rest := InsertFill(fs[1..], f);
      UniqueInsert(fs[1..], f);
      InsertFillRows(fs[1..], f);
      forall j | 0 <= j < |rest|
        ensures rest[j].id != fs[0].id
      {
        assert rest[j] in rest;
        if rest[j] != f {
          var i :| 0 <= i < |fs[1..]| && fs[1..][i] == rest[j];
          assert fs[i + 1] == rest[j];
        }
      }
    }
  }

  /** The table order is the one `ORDER BY filled_at, fill_id` asks for. */
  ghost predicate InTableOrder(fs: seq<Fill>) {
    forall i, j :: 0 <= i < j < |fs| ==> FillBefore(fs[i], fs[j])
  }

  lemma FillBeforeOrders(a: Fill, b: Fill, c: Fill)
    ensures FillBefore(a, b) && FillBefore(b, c) ==> FillBefore(a, c)
    ensures a.id != b.id ==> FillBefore(a, b) || FillBefore(b, a)
  {
    if FillBefore(a, b) && FillBefore(b, c) && a.filledAt == c.filledAt {
      LexLessTransitive(a.id, b.id, c.id);
    }
    LexLessTotal(a.id, b.id);
  }

  lemma {:induction false} InsertFillInOrder(fs: seq<Fill>, f: Fill)
    requires InTableOrder(fs) && !HasFill(fs, f.id)
    ensures InTableOrder(InsertFill(fs, f))
  {
    if fs == [] {
    } else if FillBefore(f, fs[0]) {
      forall j | 0 <= j < |fs|
        ensures FillBefore(f, fs[j])
      {
        FillBeforeOrders(f, fs[0], fs[j]);
      }
    } else {
      var rest := InsertFill(fs[1..], f);
      InsertFillInOrder(fs[1..], f);
      InsertFillRows(fs[1..], f);
      assert forall k :: 0 <= k < |fs[1..]| ==> FillBefore(fs[0], fs[1..][k]);
      FillBeforeOrders(f, fs[0], fs[0]);
      forall j | 0 <= j < |rest|
        ensures FillBefore(fs[0], rest[j])
      {
        assert rest[j] in rest;
      }
    }
  }

  lemma {:induction false} UnappliedUnique(fs: seq<Fill>, applied: seq<Fill>, client: string)
    requires UniqueIds(fs)
    ensures UniqueIds(Unapplied(fs, applied, client))
  {
    if fs != [] {
      UnappliedUnique(fs[1..], applied, client);
      assert forall f :: f in fs[1..] ==> f.id != fs[0].id;
    }
  }

  /** `broker_fills` rows name a known order, once each, and repeat its symbol and side. */
  ghost predicate FillRows(l: Ledger) {
    && UniqueIds(l.fills)
    && forall f :: f in l.fills ==>
         f.client in l.orders && f.symbol == l.orders[f.client].symbol && f.side == l.orders[f.client].side
  }

  /** An order's running count and average are those of its recorded fills. */
  ghost predicate Agrees(o: Order, shares: int, money: real) {
    o.filled == shares <= o.requested && MeanIs(o.average, shares, money)
  }

  ghost predicate MeanIs(average: Option<real>, shares: int, money: real) {
    if shares == 0 then average == None && money == 0.0
    else average.Some? && Times(average.value, shares) == money
  }

  ghost predicate OrderRows(l: Ledger) {
    forall c :: c in l.orders ==>
      Agrees(l.orders[c], Total(l.fills, SharesOf(c)), Worth(l.fills, MoneyOf(c)))
  }

  ghost predicate AppliedRows(l: Ledger) {
    UniqueIds(l.applied) && forall f :: f in l.applied ==> f in l.fills
  }

  lemma {:induction false} NoRowsNoTotal(fs: seq<Fill>, c: string)
    requires forall f :: f in fs ==> f.client != c
    ensures Total(fs, SharesOf(c)) == 0 && Worth(fs, MoneyOf(c)) == 0.0
  {
    if fs != [] {
      assert fs[0] in fs && forall f :: f in fs[1..] ==> f in fs;
      NoRowsNoTotal(fs[1..], c);
    }
  }

  // ------------------------------------------------------------ positions

  /** Average-cost replay of the fills of one symbol; `None` if some sale
      exceeds what is held at that point. */
  ghost function Replay(fs: seq<Fill>, symbol: string): Option<Inventory> {
    if fs == [] then Some(EMPTY)
    else
      var before, f := Replay(fs[..|fs| - 1], symbol), fs[|fs| - 1];
      if before.None? || f.symbol != symbol then before
      else if f.side == Buy then Some(Bought(before.value, f.quantity, f.price))
      else if f.quantity <= before.value.quantity then Some(Sold(before.value, f.quantity))
      else None
  }

  lemma {:induction false} ReplayIsNet(fs: seq<Fill>, symbol: string)
    requires Replay(fs, symbol).Some?
    ensures Replay(fs, symbol).value.quantity == Total(fs, NetOf(symbol))
  {
    if fs != [] {
      var front, f := fs[..|fs| - 1], fs[|fs| - 1];
      ReplayIsNet(front, symbol);
      TotalAppend(front, [f], NetOf(symbol));
      assert front + [f] == fs;
      assert Total([f], NetOf(symbol)) == NetOf(symbol)(f) + Total([f][1..], NetOf(symbol));
    }
  }

  ghost predicate OneOpenEach(ps: seq<Position>) {
    forall i, j :: 0 <= i < j < |ps| ==> !(ps[i].open && ps[j].open && ps[i].symbol == ps[j].symbol)
  }

  ghost function OpenRow(ps: seq<Position>, symbol: string): Option<Position> {
    var i := FirstOpen(ps, symbol);
    if i == -1 then None else Some(ps[i])
  }

  /** The open row is the holding, and there is one exactly while shares are held. */
  ghost predicate IsHolding(row: Option<Position>, held: Option<Inventory>) {
    && held.Some?
    && (if row.None? then held.value == EMPTY
        else && 0 < row.value.quantity == held.value.quantity
             && row.value.entry * row.value.quantity as real == held.value.cost)
  }

  ghost predicate PositionRows(ps: seq<Position>, applied: seq<Fill>) {
    && OneOpenEach(ps)
    && forall s :: IsHolding(OpenRow(ps, s), Replay(applied, s))
  }

  lemma {:induction false} OpenQuantityIsRow(ps: seq<Position>, symbol: string)
    requires OneOpenEach(ps)
    ensures OpenQuantity(ps, symbol) == if OpenRow(ps, symbol).Some? then OpenRow(ps, symbol).value.quantity else 0
  {
    if ps != [] {
      OpenQuantityIsRow(ps[1..], symbol);
    }
  }

  lemma InsertPositionRows(ps: seq<Position>, p: Position)
    ensures forall q :: q in InsertPosition(ps, p) <==> q in ps || q == p
  {
    assert forall q :: q in InsertPosition(ps, p) <==> q in multiset(InsertPosition(ps, p));
    assert forall q :: q in ps <==> q in multiset(ps);
  }

  lemma {:induction false} OneOpenInsert(ps: seq<Position>, p: Position)
    requires OneOpenEach(ps) && FirstOpen(ps, p.symbol) == -1
    ensures OneOpenEach(InsertPosition(ps, p))
  {
    if ps != [] && !PositionBefore(p, ps[0]) {
      OneOpenInsert(ps[1..], p);
      InsertPositionRows(ps[1..], p);
      var rest := InsertPosition(ps[1..], p);
      forall j | 0 <= j < |rest|
        ensures !(ps[0].open && rest[j].open && ps[0].symbol == rest[j].symbol)
      {
        assert rest[j] in rest;
        if rest[j] != p {
          var i :| 0 <= i < |ps[1..]| && ps[1..][i] == rest[j];
          assert ps[i + 1] == rest[j];
        }
      }
    }
  }

  lemma {:induction false} OpenRowInsert(ps: seq<Position>, p: Position, symbol: string)
    requires p.open && FirstOpen(ps, p.symbol) == -1
    ensures OpenRow(InsertPosition(ps, p), symbol) == if symbol == p.symbol then Some(p) else OpenRow(ps, symbol)
  {
    if ps != [] && !PositionBefore(p, ps[0]) {
      OpenRowInsert(ps[1..], p, symbol);
    }
  }

  lemma OpenRowUpdate(ps: seq<Position>, i: nat, p: Position, symbol: string)
    requires OneOpenEach(ps) && i == FirstOpen(ps, p.symbol)
    ensures OneOpenEach(ps[i := p])
    ensures OpenRow(ps[i := p], symbol)
            == if symbol != p.symbol then OpenRow(ps, symbol) else if p.open then Some(p) else None
  {
    var qs := ps[i := p];
    assert OneOpenEach(qs);
    var j, k := FirstOpen(ps, symbol), FirstOpen(qs, symbol);
    if symbol != p.symbol {
      assert forall m :: 0 <= m < |ps| ==>
        ((qs[m].open && qs[m].symbol == symbol) <==> (ps[m].open && ps[m].symbol == symbol));
      assert j == k;
    } else if p.open {
      assert qs[i].open && k != -1;
    }
  }

  /** The row a fill leaves in place of `p`. */
  ghost predicate MovedBy(p: Position, q: Position, f: Fill) {
    && q.symbol == p.symbol
    && if f.side == Buy then
         q.open && q.quantity == p.quantity + f.quantity && q.entry == Blend(p.quantity, p.entry, f.quantity, f.price)
       else
         f.quantity <= p.quantity && q.quantity == p.quantity - f.quantity && q.entry == p.entry
         && q.open == (q.quantity > 0)
  }

  lemma HoldingAfterBuy(p: Position, q: Position, held: Inventory, f: Fill)
    requires IsHolding(Some(p), Some(held)) && f.side == Buy && MovedBy(p, q, f)
    ensures IsHolding(Some(q), Some(Bought(held, f.quantity, f.price)))
  {
    BlendTimes(p.quantity, p.entry, f.quantity, f.price);
  }

  lemma HoldingAfterSell(p: Position, q: Position, held: Inventory, f: Fill)
    requires IsHolding(Some(p), Some(held)) && f.side == Sell && MovedBy(p, q, f)
    ensures IsHolding(if q.open then Some(q) else None, Some(Sold(held, f.quantity)))
  {
    SoldKeepsAverage(held, f.quantity);
    AverageOfProduct(p.entry, p.quantity, f.quantity);
  }

  lemma AverageOfProduct(e: real, n: nat, m: nat)
    requires 0 < n && m <= n
    ensures e * n as real / n as real == e
    ensures e * n as real - e * m as real == e * (n - m) as real
  {
    var x, y := n as real, m as real;
    assert (n - m) as real == x - y;
    assert e * (x - y) == e * x - e * y;
    ProductOverFactor(e, x);
  }

  lemma ProductOverFactor(e: real, x: real)
    requires x != 0.0
    ensures e * x / x == e
  {
  }

  /** Taking in one fill moves the holding of its symbol by that fill and of no
      other symbol, or fails. */
  lemma TakeInKeeps(ps: seq<Position>, applied: seq<Fill>, o: Order, client: string, f: Fill, plan: Plan)
    requires PositionRows(ps, applied) && TakeIn(ps, o, client, f, plan).Done?
    ensures PositionRows(TakeIn(ps, o, client, f, plan).value, applied + [f])
  {
    var qs := TakeIn(ps, o, client, f, plan).value;
    var i := FirstOpen(ps, f.symbol);
    assert IsHolding(OpenRow(ps, f.symbol), Replay(applied, f.symbol));
    if i == -1 {
      var p :| qs == InsertPosition(ps, p) && p.open && p.symbol == f.symbol && p.quantity == f.quantity && p.entry == f.price;
      OpeningKeeps(ps, applied, f, p);
    } else {
      MovingKeeps(ps, applied, f, qs[i]);
      assert qs == ps[i := qs[i]];
    }
  }

  lemma OpeningKeeps(ps: seq<Position>, applied: seq<Fill>, f: Fill, p: Position)
    requires PositionRows(ps, applied) && FirstOpen(ps, f.symbol) == -1 && f.side == Buy
    requires p.open && p.symbol == f.symbol && p.quantity == f.quantity && p.entry == f.price
    ensures PositionRows(InsertPosition(ps, p), applied + [f])
  {
    OneOpenInsert(ps, p);
    forall s
      ensures IsHolding(OpenRow(InsertPosition(ps, p), s), Replay(applied + [f], s))
    {
      OpenRowInsert(ps, p, s);
      ReplayAppend(applied, f, s);
      assert IsHolding(OpenRow(ps, s), Replay(applied, s));
    }
  }

  lemma MovingKeeps(ps: seq<Position>, applied: seq<Fill>, f: Fill, p: Position)
    requires PositionRows(ps, applied) && FirstOpen(ps, f.symbol) != -1
    requires MovedBy(ps[FirstOpen(ps, f.symbol)], p, f)
    ensures PositionRows(ps[FirstOpen(ps, f.symbol) := p], applied + [f])
  {
    var i := FirstOpen(ps, f.symbol);
    var qs := ps[i := p];
    var held := Replay(applied, f.symbol);
    assert IsHolding(OpenRow(ps, f.symbol), held);
    if f.side == Buy {
      HoldingAfterBuy(ps[i], p, held.value, f);
    } else {
      HoldingAfterSell(ps[i], p, held.value, f);
    }
    OpenRowUpdate(ps, i, p, f.symbol);
    forall s
      ensures IsHolding(OpenRow(qs, s), Replay(applied + [f], s))
    {
      OpenRowUpdate(ps, i, p, s);
      ReplayAppend(applied, f, s);
      assert IsHolding(OpenRow(ps, s), Replay(applied, s));
    }
  }

  lemma ReplayAppend(applied: seq<Fill>, f: Fill, symbol: string)
    ensures f.symbol != symbol ==> Replay(applied + [f], symbol) == Replay(applied, symbol)
    ensures f.symbol == symbol && Replay(applied, symbol).Some? ==>
              Replay(applied + [f], symbol) ==
              var held := Replay(applied, symbol).value;
              if f.side == Buy then Some(Bought(held, f.quantity, f.price))
              else if f.quantity <= held.quantity then Some(Sold(held, f.quantity)) else None
  {
    assert (applied + [f])[..|applied|] == applied;
  }

  lemma BlendTimes(quantity: nat, average: real, more: Count, price: real)
    ensures Blend(quantity, average, more, price) * (quantity + more) as real
            == average * quantity as real + more as real * price
  {
    var n := (quantity + more) as real;
    var x := quantity as real * average + more as real * price;
    assert x / n * n == x;
    assert quantity as real * average == average * quantity as real;
  }

  lemma {:induction false} TakeInAllKeeps(ps: seq<Position>, applied: seq<Fill>, o: Order, client: string, fs: seq<Fill>, plan: Plan)
    requires PositionRows(ps, applied) && TakeInAll(ps, o, client, fs, plan).Done?
    ensures PositionRows(TakeInAll(ps, o, client, fs, plan).value, applied + fs)
  {
    if fs == [] {
      assert applied + fs == applied;
    } else {
      var front, f := fs[..|fs| - 1], fs[|fs| - 1];
      TakeInAllKeeps(ps, applied, o, client, front, plan);
      TakeInKeeps(TakeInAll(ps, o, client, front, plan).value, applied + front, o, client, f, plan);
      assert applied + fs == applied + front + [f];
    }
  }
}
