/** When the entry price of a live position is the mean of the BUY fills that
    built it, over whole histories of taken-in fills. */
module EntryPrice {
  import opened Wrappers
  import opened Text
  import opened LedgerTables
  import opened LedgerInvariant
  import opened LedgerRuns
  import opened AverageCost

  /** The fills of a symbol since its position was opened; none while it is flat. */
  ghost function Since(fs: seq<Fill>, symbol: string): seq<Fill> {
    if fs == [] then []
    else
      var front, f := fs[..|fs| - 1], fs[|fs| - 1];
      if f.symbol != symbol then Since(front, symbol)
      else if f.side == Sell && Replay(front, symbol).Some? && f.quantity == Replay(front, symbol).value.quantity then []
      else Since(front, symbol) + [f]
  }

  function BuyShares(fs: seq<Fill>): nat {
    if fs == [] then 0 else BuyShares(fs[..|fs| - 1]) + if fs[|fs| - 1].side == Buy then fs[|fs| - 1].quantity else 0
  }

  function BuyMoney(fs: seq<Fill>): real {
    if fs == [] then 0.0 else BuyMoney(fs[..|fs| - 1]) + if fs[|fs| - 1].side == Buy then fs[|fs| - 1].Money() else 0.0
  }

  ghost predicate HasSale(fs: seq<Fill>) {
    exists i :: 0 <= i < |fs| && fs[i].side == Sell
  }

  /** The average cost is the quantity-weighted mean of the BUY fills since opening. */
  ghost predicate IsPurchaseMean(fs: seq<Fill>, symbol: string)
    requires Replay(fs, symbol).Some?
  {
    BuyShares(Since(fs, symbol)) > 0
    && Replay(fs, symbol).value.Average() == BuyMoney(Since(fs, symbol)) / BuyShares(Since(fs, symbol)) as real
  }

  lemma SumsAppend(fs: seq<Fill>, f: Fill)
    ensures BuyShares(fs + [f]) == BuyShares(fs) + if f.side == Buy then f.quantity else 0
    ensures BuyMoney(fs + [f]) == BuyMoney(fs) + if f.side == Buy then f.Money() else 0.0
    ensures HasSale(fs + [f]) <==> HasSale(fs) || f.side == Sell
  {
    assert (fs + [f])[..|fs|] == fs;
    if HasSale(fs) {
      var i :| 0 <= i < |fs| && fs[i].side == Sell;
      assert (fs + [f])[i].side == Sell;
    }
    if f.side == Sell {
      assert (fs + [f])[|fs|].side == Sell;
    }
  }

  /** One more fill of a history that replays. */
  lemma ReplayFront(fs: seq<Fill>, symbol: string)
    requires fs != [] && Replay(fs, symbol).Some?
    ensures var front, f := fs[..|fs| - 1], fs[|fs| - 1];
            && Replay(front, symbol).Some?
            && var held := Replay(front, symbol).value;
               if f.symbol != symbol then Replay(fs, symbol).value == held
               else if f.side == Buy then Replay(fs, symbol).value == Bought(held, f.quantity, f.price)
               else f.quantity <= held.quantity && Replay(fs, symbol).value == Sold(held, f.quantity)
  {
    assert fs[|fs| - 1].side.Buy? || fs[|fs| - 1].side.Sell?;
  }

  /** What the fills since opening say of the holding. */
  lemma {:induction false} SinceFacts(fs: seq<Fill>, symbol: string)
    requires Replay(fs, symbol).Some?
    ensures var held, since := Replay(fs, symbol).value, Since(fs, symbol);
            && 0 <= held.quantity && (since == [] <==> held.quantity == 0) && (held.quantity == 0 ==> held == EMPTY)
            && held.quantity <= BuyShares(since) && (HasSale(since) <==> held.quantity < BuyShares(since))
  {
    hide Bought, Sold;
    if fs != [] {
      var front, f := fs[..|fs| - 1], fs[|fs| - 1];
      ReplayFront(fs, symbol);
      SinceFacts(front, symbol);
      var held := Replay(front, symbol).value;
      SumsAppend(Since(front, symbol), f);
      if f.symbol == symbol {
        assert f.side.Buy? || f.side.Sell?;
        if f.side == Buy {
          BoughtQuantity(held, f.quantity, f.price);
        } else {
          SoldQuantity(held, f.quantity);
        }
      }
    }
  }

  lemma BoughtQuantity(i: Inventory, n: nat, price: real)
    ensures Bought(i, n, price).quantity == i.quantity + n
  {
  }

  lemma SoldQuantity(i: Inventory, n: Count)
    requires n <= i.quantity
    ensures Sold(i, n).quantity == i.quantity - n
    ensures n == i.quantity ==> Sold(i, n) == EMPTY
    ensures n < i.quantity ==> Sold(i, n).Average() == i.Average()
  {
    SoldKeepsAverage(i, n);
  }

  // --------------------------------------------------------------- step by step

  lemma FirstPurchase(n: Count, price: real)
    ensures Bought(EMPTY, n, price).Average() == price
    ensures (n as real * price) / n as real == price
  {
    ProductOverFactor(price, n as real);
    assert Bought(EMPTY, n, price).cost == price * n as real;
  }

  lemma CostOfAverage(i: Inventory)
    requires i.quantity > 0
    ensures i == Inventory(i.quantity, i.Average() * i.quantity as real)
  {
    assert i.cost / i.quantity as real * i.quantity as real == i.cost;
  }

  lemma MoneyOfMean(m: real, shares: nat, money: real)
    requires shares > 0 && m == money / shares as real
    ensures money == m * shares as real
  {
  }

  lemma MeanAfterPurchase(i: Inventory, bought: nat, money: real, n: Count, price: real)
    requires 0 < i.quantity <= bought && i.Average() == money / bought as real
    ensures Bought(i, n, price).Average() == (money + Times(price, n)) / (bought + n) as real
            <==> i.quantity == bought || price == i.Average()
  {
    var e := i.Average();
    CostOfAverage(i);
    MoneyOfMean(e, bought, money);
    AverageIsPurchaseMean(i.quantity, bought, e, n, price);
  }

  /** The history with one more fill of the symbol. */
  lemma OneMore(fs: seq<Fill>, f: Fill, symbol: string)
    requires Replay(fs, symbol).Some? && f.symbol == symbol && f.side == Buy
    ensures Since(fs + [f], symbol) == Since(fs, symbol) + [f]
    ensures Replay(fs + [f], symbol) == Some(Bought(Replay(fs, symbol).value, f.quantity, f.price))
  {
    hide Bought, Sold;
    assert (fs + [f])[..|fs|] == fs && (fs + [f])[|fs|] == f;
  }

  /** A purchase on top of a holding whose average is the mean keeps it the mean if
      and only if nothing was sold since opening or it is made at the average. */
  lemma PurchaseKeepsMeanIff(fs: seq<Fill>, f: Fill, symbol: string)
    requires Replay(fs, symbol).Some? && IsPurchaseMean(fs, symbol) && Since(fs, symbol) != []
    requires f.symbol == symbol && f.side == Buy
    ensures Replay(fs + [f], symbol).Some?
    ensures IsPurchaseMean(fs + [f], symbol) <==> !HasSale(Since(fs, symbol)) || f.price == Replay(fs, symbol).value.Average()
  {
    hide Bought, Sold, Replay, Since, Times, HasSale, Inventory.Average, BuyShares, BuyMoney;
    var held, since := Replay(fs, symbol).value, Since(fs, symbol);
    OneMore(fs, f, symbol);
    SinceFacts(fs, symbol);
    SumsAppend(since, f);
    MeanAfterPurchase(held, BuyShares(since), BuyMoney(since), f.quantity, f.price);
  }

  /** A sale that leaves something moves neither the average nor the mean. */
  lemma SaleKeepsMean(fs: seq<Fill>, f: Fill, symbol: string)
    requires Replay(fs, symbol).Some? && f.symbol == symbol && f.side == Sell && f.quantity < Replay(fs, symbol).value.quantity
    ensures Replay(fs + [f], symbol).Some?
    ensures IsPurchaseMean(fs + [f], symbol) <==> IsPurchaseMean(fs, symbol)
  {
    hide Bought, Sold;
    var all := fs + [f];
    assert all[..|fs|] == fs && all[|fs|] == f;
    SumsAppend(Since(fs, symbol), f);
    SoldQuantity(Replay(fs, symbol).value, f.quantity);
  }

  /** The purchase that opens a position. */
  lemma OpeningIsMean(fs: seq<Fill>, f: Fill, symbol: string)
    requires Replay(fs, symbol).Some? && Since(fs, symbol) == [] && f.symbol == symbol && f.side == Buy
    ensures Replay(fs + [f], symbol).Some? && IsPurchaseMean(fs + [f], symbol)
  {
    hide Bought, Sold, Replay, Since, BuyShares, BuyMoney, HasSale, Fill.Money, Inventory.Average;
    OneMore(fs, f, symbol);
    SinceFacts(fs, symbol);
    SumsAppend([], f);
    NothingBought();
    assert Since(fs + [f], symbol) == [] + [f];
    FirstPurchase(f.quantity, f.price);
    MoneyIs(f);
  }

  lemma MoneyIs(f: Fill)
    ensures f.Money() == f.quantity as real * f.price
  {
  }

  // ------------------------------------------------------------ whole histories

  /** The entry price has been the mean of the purchases ever since opening. */
  ghost predicate MeanThroughout(fs: seq<Fill>, symbol: string) {
    Since(fs, symbol) != [] ==>
      Replay(fs, symbol).Some? && IsPurchaseMean(fs, symbol) && (fs != [] ==> MeanThroughout(fs[..|fs| - 1], symbol))
  }

  /** Since opening, each purchase after a sale was made at the average of the moment. */
  ghost predicate Steady(fs: seq<Fill>, symbol: string) {
    Since(fs, symbol) != [] && fs != [] ==>
      var front, f := fs[..|fs| - 1], fs[|fs| - 1];
      && Steady(front, symbol)
      && (f.symbol == symbol && f.side == Buy && HasSale(Since(front, symbol)) ==>
            Replay(front, symbol).Some? && f.price == Replay(front, symbol).value.Average())
  }

  /** Over every history the entry price stays the mean of the BUY fills since
      opening if and only if it is steady. */
  lemma {:induction false} MeanThroughoutIffSteady(fs: seq<Fill>, symbol: string)
    requires Replay(fs, symbol).Some?
    ensures MeanThroughout(fs, symbol) <==> Steady(fs, symbol)
  {
    hide IsPurchaseMean, Bought, Sold, HasSale;
    if fs != [] && Since(fs, symbol) != [] {
      var front, f := fs[..|fs| - 1], fs[|fs| - 1];
      assert fs == front + [f];
      ReplayFront(fs, symbol);
      MeanThroughoutIffSteady(front, symbol);
      SinceFacts(front, symbol);
      if f.symbol != symbol {
        SameElsewhere(front, f, symbol);
      } else if f.side == Sell {
        SaleKeepsMean(front, f, symbol);
      } else if Since(front, symbol) == [] {
        assert f.side.Buy? || f.side.Sell?;
        OpeningIsMean(front, f, symbol);
        NoSaleInNothing();
      } else if MeanThroughout(front, symbol) {
        assert f.side.Buy? || f.side.Sell?;
        PurchaseKeepsMeanIff(front, f, symbol);
      }
    }
  }

  lemma NoSaleInNothing()
    ensures !HasSale([])
  {
  }

  lemma SameElsewhere(front: seq<Fill>, f: Fill, symbol: string)
    requires f.symbol != symbol && Replay(front, symbol).Some?
    ensures Replay(front + [f], symbol).Some? && (IsPurchaseMean(front + [f], symbol) <==> IsPurchaseMean(front, symbol))
  {
    assert (front + [f])[..|front|] == front;
  }

  ghost predicate NoSaleBeforePurchase(fs: seq<Fill>) {
    forall i, j :: 0 <= i < j < |fs| && fs[i].side == Sell ==> fs[j].side != Buy
  }

  lemma {:induction false} UninterruptedIsSteady(fs: seq<Fill>, symbol: string)
    requires NoSaleBeforePurchase(Since(fs, symbol))
    ensures Steady(fs, symbol)
  {
    if fs != [] && Since(fs, symbol) != [] {
      var front, f := fs[..|fs| - 1], fs[|fs| - 1];
      var since := Since(front, symbol);
      if f.symbol == symbol {
        var all := Since(fs, symbol);
        assert all == since + [f];
        assert forall k :: 0 <= k < |since| ==> since[k] == all[k];
        assert all[|since|] == f;
      }
      UninterruptedIsSteady(front, symbol);
    }
  }

  /** In every ledger with the invariant: the entry price of an open position is
      the mean of the BUY fills since it was opened when no sale among them came
      before a purchase, and more generally when the history was steady. */
  lemma EntryIsPurchaseMean(l: Ledger, symbol: string, i: nat)
    requires LedgerOk(l) && i < |l.positions| && l.positions[i].open && l.positions[i].symbol == symbol
    ensures var since := Since(l.applied, symbol);
            && (NoSaleBeforePurchase(since) ==> Steady(l.applied, symbol))
            && (Steady(l.applied, symbol) ==>
                  BuyShares(since) > 0 && l.positions[i].entry == BuyMoney(since) / BuyShares(since) as real)
            && (Steady(l.applied, symbol) <==> MeanThroughout(l.applied, symbol))
  {
    hide LedgerOk;
    OpenPositionIsHolding(l, symbol, i);
    ReplayIsNet(l.applied, symbol);
    SinceFacts(l.applied, symbol);
    MeanThroughoutIffSteady(l.applied, symbol);
    if NoSaleBeforePurchase(Since(l.applied, symbol)) {
      UninterruptedIsSteady(l.applied, symbol);
    }
  }

  // ------------------------------------------------- a run where they part ways

  /** An order of `n` shares claimed, filled at `price` and taken in. */
  function Trade(client: string, side: Side, n: Count, price: Price, at: int): (calls: seq<Call>)
    ensures |calls| == 3 && forall call :: call in calls ==> !call.UpdateCall?
  {
    [ClaimCall(client, None, "005930", side, n, price, at),
     FillCall(FillRequest(client, client, n, price, at, None, None, None, at)),
     MaterializeCall(client, LADDER)]
  }

  const LADDER := Plan(Some(1.0), Some(100.0), None, "EXIT")

  function TradeFill(client: string, side: Side, n: Count, price: Price, at: int): Fill {
    Fill(client, client, None, "005930", side, n, price, at, at)
  }

  lemma {:induction false} NoneUnapplied(fs: seq<Fill>, applied: seq<Fill>, client: string)
    requires forall g :: g in fs ==> g.client != client
    ensures Unapplied(fs, applied, client) == []
  {
    if fs != [] {
      assert fs[0] in fs;
      NoneUnapplied(fs[1..], applied, client);
    }
  }

  lemma {:induction false} OnlyUnapplied(fs: seq<Fill>, applied: seq<Fill>, f: Fill)
    requires !HasFill(applied, f.id) && forall g :: g in fs ==> g.client != f.client
    ensures Unapplied(InsertFill(fs, f), applied, f.client) == [f]
  {
    if fs == [] || FillBefore(f, fs[0]) {
      assert ([f] + fs)[1..] == fs;
      NoneUnapplied(fs, applied, f.client);
    } else {
      OnlyUnapplied(fs[1..], applied, f);
    }
  }

  lemma {:induction false} InsertLast(fs: seq<Fill>, f: Fill)
    requires forall g :: g in fs ==> g.filledAt < f.filledAt
    ensures InsertFill(fs, f) == fs + [f]
  {
    if fs != [] {
      assert fs[0] in fs;
      InsertLast(fs[1..], f);
    }
  }

  /** Such a trade by a new order that came last is taken in as its one fill. */
  lemma TradeTakesIn(l: Ledger, client: string, side: Side, n: Count, price: Price, at: int)
    requires !Blank(client) && client !in l.orders && l.applied == l.fills
    requires forall g :: g in l.fills ==> g.filledAt < at && g.client in l.orders && g.id in l.orders
    requires var f := TradeFill(client, side, n, price, at);
             forall o :: TakeIn(l.positions, o, client, f, LADDER).Done?
    ensures var calls, f := Trade(client, side, n, price, at), TradeFill(client, side, n, price, at);
            var m := Execute(Execute(Execute(l, calls[0]), calls[1]), calls[2]);
            && m.orders.Keys == l.orders.Keys + {client} && m.fills == m.applied == l.applied + [f]
            && exists o :: TakeIn(l.positions, o, client, f, LADDER) == Done(m.positions)
  {
    hide TakeIn, Execute;
    var calls, f := Trade(client, side, n, price, at), TradeFill(client, side, n, price, at);
    var a := Execute(l, calls[0]);
    TradeClaims(l, client, side, n, price, at);
    var b := Execute(a, calls[1]);
    TradeFills(a, client, side, n, price, at);
    OnlyUnapplied(l.fills, l.applied, f);
    InsertLast(l.fills, f);
    TradeMaterializes(b, client, f);
  }

  lemma TradeClaims(l: Ledger, client: string, side: Side, n: Count, price: Price, at: int)
    requires !Blank(client) && client !in l.orders
    ensures var a := Execute(l, Trade(client, side, n, price, at)[0]);
            && a == l.(orders := a.orders) && a.orders.Keys == l.orders.Keys + {client}
            && a.orders[client].symbol == "005930" && a.orders[client].side == side && a.orders[client].requested == n
            && a.orders[client].filled == 0 && a.orders[client].brokerId == None
  {
  }

  lemma TradeFills(a: Ledger, client: string, side: Side, n: Count, price: Price, at: int)
    requires !Blank(client) && client in a.orders && !HasFill(a.fills, client)
    requires a.orders[client].symbol == "005930" && a.orders[client].side == side && a.orders[client].requested == n
    requires a.orders[client].filled == 0 && a.orders[client].brokerId == None
    ensures var b := Execute(a, Trade(client, side, n, price, at)[1]);
            && b == a.(orders := b.orders, fills := InsertFill(a.fills, TradeFill(client, side, n, price, at)))
            && b.orders.Keys == a.orders.Keys
  {
    hide RolledUp, InsertFill;
  }

  lemma TradeMaterializes(b: Ledger, client: string, f: Fill)
    requires !Blank(client) && client in b.orders && Unapplied(b.fills, b.applied, client) == [f]
    requires TakeIn(b.positions, b.orders[client], client, f, LADDER).Done?
    ensures Execute(b, MaterializeCall(client, LADDER))
            == b.(positions := TakeIn(b.positions, b.orders[client], client, f, LADDER).value, applied := b.applied + [f])
  {
    hide TakeIn, Unapplied;
    assert [f][..0] == [];
    assert TakeInAll(b.positions, b.orders[client], client, [], LADDER) == Done(b.positions);
    assert TakeInAll(b.positions, b.orders[client], client, [f], LADDER)
           == TakeIn(b.positions, b.orders[client], client, f, LADDER);
  }

  lemma ExecuteTrade(l: Ledger, calls: seq<Call>, more: seq<Call>)
    requires |more| == 3
    ensures ExecuteAll(l, calls + more) == Execute(Execute(Execute(ExecuteAll(l, calls), more[0]), more[1]), more[2])
  {
    hide Execute;
    var two, one := calls + more[..2], calls + more[..1];
    assert (calls + more)[..|calls| + 2] == two && (calls + more)[|calls| + 2] == more[2];
    assert two[..|calls| + 1] == one && two[|calls| + 1] == more[1];
    assert one[..|calls|] == calls && one[|calls|] == more[0];
    assert ExecuteAll(l, one) == Execute(ExecuteAll(l, calls), more[0]);
    assert ExecuteAll(l, two) == Execute(ExecuteAll(l, one), more[1]);
  }

  lemma {:induction false} NoUpdatesNoHarm(l: Ledger, calls: seq<Call>)
    requires forall call :: call in calls ==> !call.UpdateCall?
    ensures AllHarmless(l, calls)
  {
    hide Execute;
    if calls != [] {
      NoUpdatesNoHarm(l, calls[..|calls| - 1]);
    }
  }

  /** The ledger with these fills taken in and this one open position. */
  ghost predicate Holds(l: Ledger, clients: set<string>, fs: seq<Fill>, quantity: nat, entry: real) {
    && l.orders.Keys == clients && l.fills == l.applied == fs
    && |l.positions| == 1 && l.positions[0].open && l.positions[0].symbol == "005930"
    && l.positions[0].quantity == quantity && l.positions[0].entry == entry
  }

  /** The three ledgers the trades below lead through. */
  lemma Opens(l: Ledger)
    requires l == Ledger(map[], [], [], [], map[])
    ensures var t := Trade("a", Buy, 2, 10.0, 0);
            Holds(Execute(Execute(Execute(l, t[0]), t[1]), t[2]), {"a"}, [TradeFill("a", Buy, 2, 10.0, 0)], 2, 10.0)
  {
    hide Execute;
    assert "a"[0] == 'a';
    TradeTakesIn(l, "a", Buy, 2, 10.0, 0);
  }

  lemma SellsOne(l: Ledger)
    requires Holds(l, {"a"}, [TradeFill("a", Buy, 2, 10.0, 0)], 2, 10.0)
    ensures var t := Trade("b", Sell, 1, 10.0, 1);
            Holds(Execute(Execute(Execute(l, t[0]), t[1]), t[2]), {"a", "b"},
                  [TradeFill("a", Buy, 2, 10.0, 0), TradeFill("b", Sell, 1, 10.0, 1)], 1, 10.0)
  {
    hide Execute;
    assert "b"[0] == 'b';
    assert FirstOpen(l.positions, "005930") == 0;
    TradeTakesIn(l, "b", Sell, 1, 10.0, 1);
  }

  lemma BuysDearer(l: Ledger, f: Fill, g: Fill)
    requires f == TradeFill("a", Buy, 2, 10.0, 0) && g == TradeFill("b", Sell, 1, 10.0, 1)
    requires Holds(l, {"a", "b"}, [f, g], 1, 10.0)
    ensures var t := Trade("c", Buy, 1, 20.0, 2);
            Holds(Execute(Execute(Execute(l, t[0]), t[1]), t[2]), {"a", "b", "c"},
                  [f, g, TradeFill("c", Buy, 1, 20.0, 2)], 2, 15.0)
  {
    hide Execute;
    assert "c"[0] == 'c';
    assert FirstOpen(l.positions, "005930") == 0;
    TradeTakesIn(l, "c", Buy, 1, 20.0, 2);
    assert Blend(1, 10.0, 1, 20.0) == 15.0;
  }

  /** Two shares bought at 10, one sold, one bought at 20: the entry price is 15,
      and the mean of the purchases since opening is 40/3. */
  lemma MeanLostAfterPartialSale() returns (calls: seq<Call>, l: Ledger)
    ensures l == ExecuteAll(Ledger(map[], [], [], [], map[]), calls) && LedgerOk(l)
    ensures |l.positions| == 1 && l.positions[0].open && l.positions[0].symbol == "005930"
    ensures Since(l.applied, "005930") == l.applied && BuyShares(l.applied) == 3 && BuyMoney(l.applied) == 40.0
    ensures l.positions[0].entry == 15.0 != 40.0 / 3.0
  {
    hide Execute, LedgerOk, TablesOk, AllHarmless, Since, Trade;
    var empty := Ledger(map[], [], [], [], map[]);
    var t, u, v := Trade("a", Buy, 2, 10.0, 0), Trade("b", Sell, 1, 10.0, 1), Trade("c", Buy, 1, 20.0, 2);
    var f, g, h := TradeFill("a", Buy, 2, 10.0, 0), TradeFill("b", Sell, 1, 10.0, 1), TradeFill("c", Buy, 1, 20.0, 2);
    calls := [] + t + u + v;
    NoUpdatesNoHarm(empty, calls);
    EveryRunKeeps(map[], calls);
    assert ExecuteAll(empty, []) == empty;
    ExecuteTrade(empty, [], t);
    ExecuteTrade(empty, [] + t, u);
    ExecuteTrade(empty, [] + t + u, v);
    Opens(empty);
    SellsOne(ExecuteAll(empty, [] + t));
    BuysDearer(ExecuteAll(empty, [] + t + u), f, g);
    l := ExecuteAll(empty, calls);
    assert l.applied == [f, g, h];
    PartedSums(f, g, h);
  }

  lemma PartedSums(f: Fill, g: Fill, h: Fill)
    requires f == TradeFill("a", Buy, 2, 10.0, 0) && g == TradeFill("b", Sell, 1, 10.0, 1) && h == TradeFill("c", Buy, 1, 20.0, 2)
    ensures Since([f, g, h], "005930") == [f, g, h] && BuyShares([f, g, h]) == 3 && BuyMoney([f, g, h]) == 40.0
  {
    hide BuyShares, BuyMoney, Since, Fill.Money, HasSale;
    PartedSince(f, g, h);
    NothingBought();
    SumsAppend([], f);
    SumsAppend([f], g);
    SumsAppend([f, g], h);
    assert [] + [f] == [f] && [f] + [g] == [f, g] && [f, g] + [h] == [f, g, h];
    assert f.Money() == 20.0 && h.Money() == 20.0 by { PartedMoney(f, h); }
  }

  lemma NothingBought()
    ensures BuyShares([]) == 0 && BuyMoney([]) == 0.0 && Since([], "005930") == []
  {
  }

  lemma PartedMoney(f: Fill, h: Fill)
    requires f.price == 10.0 && f.quantity == 2 && h.price == 20.0 && h.quantity == 1
    ensures f.Money() == 20.0 && h.Money() == 20.0
  {
  }

  /** The sale leaves a share, so the position goes on. */
  lemma PartedSince(f: Fill, g: Fill, h: Fill)
    requires f == TradeFill("a", Buy, 2, 10.0, 0) && g == TradeFill("b", Sell, 1, 10.0, 1) && h == TradeFill("c", Buy, 1, 20.0, 2)
    ensures Since([f, g, h], "005930") == [f, g, h]
  {
    hide Bought, Sold;
    assert [] + [f] == [f] && [f] + [g] == [f, g] && [f, g] + [h] == [f, g, h];
    OneMore([], f, "005930");
    BoughtQuantity(EMPTY, 2, 10.0);
    assert [f, g][..1] == [f];
    OneMore([f, g], h, "005930");
  }
}
