/** A run that claims an exit for more shares than are open: a supervisor pass
    adopts a partial sale between the read of the position and the vetting. */
module UncoveredExit {
  import opened Wrappers
  import opened Text
  import opened LedgerTables
  import opened LedgerInvariant
  import opened LedgerRuns
  import opened BrokerRecords
  import opened Reconciliation
  import opened OrderManagement
  import opened TruthfulBroker
  import opened ReconcileTruth
  import opened PassTruth
  import opened ReconcileTheorems
  import opened ManageTruth
  import opened ServiceRun
  import opened ServiceSafety
  import opened ServiceTheorems
  import opened NeverShort
  import opened BuyGuard
  import opened SaleCoverage

  // -------------------------------------------------------- placing an order

  function PlacedRow(t: Ticket, number: string): Order {
    Order(Some(t.signal), t.symbol, t.side, t.quantity, t.price, Acknowledged, Some(number), 0, None, 0, 0, Some(0), None, None)
  }

  ghost predicate Placeable(w: World, t: Ticket, number: string) {
    && w.trader == Vetted(t) && !Blank(t.client) && !Blank(t.signal) && StockCode(t.symbol)
    && t.client !in w.ledger.orders && number !in w.broker && !Blank(number)
    && if t.side == Sell then t.quantity <= OpenQuantity(w.ledger.positions, t.symbol)
       else w.ledger.orders == map[] && !w.review && !w.blockEntries
  }

  lemma TicketClaimed(w: World, t: Ticket, number: string)
    requires Placeable(w, t, number)
    ensures Enabled(w, ClaimIt(0))
    ensures Next(w, ClaimIt(0)) == w.(ledger := PutOrder(w.ledger, t.client, TicketRow(t, Intent)), trader := Claimed(t))
  {
    hide OpenQuantity, ExitOrders, Unresolved, Sensible, AfterSupervise;
  }

  lemma TicketCleared(w: World, t: Ticket)
    requires w.trader == Marked(t)
    requires if t.side == Sell then t.quantity <= OpenQuantity(w.ledger.positions, t.symbol)
             else !w.review && !w.blockEntries && forall c :: c in w.ledger.orders ==> w.ledger.orders[c].status == Submitting
    ensures Enabled(w, Guard(true)) && Next(w, Guard(true)) == w.(trader := Cleared(t))
  {
    hide OpenQuantity, ExitOrders, Unresolved, Sensible, AfterSupervise;
    assert t.side.Buy? || t.side.Sell?;
    assert t.side == Buy ==> forall c :: c in w.ledger.orders ==> !SeenByGuard(w.ledger.orders[c]);
  }

  lemma TicketRecorded(w: World, t: Ticket, number: string)
    requires w.trader == Answered(t, Some(number)) && !Blank(t.client) && !Blank(number)
    requires t.client in w.ledger.orders && w.ledger.orders[t.client] == TicketRow(t, Submitting)
    ensures Enabled(w, Finish(0))
    ensures Next(w, Finish(0)) == w.(ledger := PutOrder(w.ledger, t.client, PlacedRow(t, number)), trader := Idle)
  {
    hide OpenQuantity, ExitOrders, Unresolved, Sensible, AfterSupervise;
  }

  function AfterPlacing(w: World, t: Ticket, number: string): World {
    w.(ledger := PutOrder(w.ledger, t.client, PlacedRow(t, number)), trader := Idle, calls := w.calls + [t.client],
       broker := w.broker[number := BrokerOrder(t.client, t.symbol, t.side, t.quantity, 0, 0.0, None)])
  }

  /** A vetted ticket goes all the way to the broker, and the answer is recorded. */
  lemma OrderPlaced(w: World, t: Ticket, number: string) returns (ws: seq<World>, es: seq<Event>)
    requires Placeable(w, t, number)
    ensures Steps(ws, es) && |es| == 5 && ws[0] == w && ws[5] == AfterPlacing(w, t, number)
  {
    hide Next, Enabled, OpenQuantity;
    var before, clearing := TicketMadeReady(w, t, number);
    var w3 := before[3];
    EntryCalled(w3, t, number);
    CallStep(w3, number, true, true);
    var w4 := Next(w3, CallBroker(number, true, true));
    TicketRecorded(w4, t, number);
    var after, calling := [w3, w4, Next(w4, Finish(0))], [CallBroker(number, true, true), Finish(0)];
    assert after[2].ledger.orders == AfterPlacing(w, t, number).ledger.orders;
    assert Steps(after, calling);
    StepsJoin(before, clearing, after, calling);
    ws, es := before + after[1..], clearing + calling;
  }

  lemma TicketMadeReady(w: World, t: Ticket, number: string) returns (ws: seq<World>, es: seq<Event>)
    requires Placeable(w, t, number)
    ensures Steps(ws, es) && |es| == 3 && ws[0] == w
    ensures ws[3] == w.(ledger := PutOrder(w.ledger, t.client, TicketRow(t, Submitting)), trader := Cleared(t))
  {
    hide Next, Enabled, OpenQuantity;
    es := [ClaimIt(0), MarkIt(0), Guard(true)];
    TicketClaimed(w, t, number);
    var w1 := Next(w, es[0]);
    EntryMarked(w1, t);
    var w2 := Next(w1, es[1]);
    assert w2.ledger.orders == w.ledger.orders[t.client := TicketRow(t, Submitting)];
    TicketCleared(w2, t);
    ws := [w, w1, w2, Next(w2, es[2])];
  }

  lemma {:induction false} StepsSafe(ws: seq<World>, es: seq<Event>)
    requires Steps(ws, es) && Safe(ws[0])
    ensures Safe(ws[|es|])
    decreases |es|
  {
    hide Safe, Next, Enabled;
    if es != [] {
      var n := |es| - 1;
      assert Enabled(ws[n], es[n]) && ws[n + 1] == Next(ws[n], es[n]);
      assert Steps(ws[..|es|], es[..n]);
      StepsSafe(ws[..|es|], es[..n]);
      EventKeeps(ws[n], es[n]);
    }
  }

  // ------------------------------------------------------------- the two passes

  const DECISION := Decision(Some(1.0), Some(100.0), None)
  const ENTRY := Ticket("a", "s", "005930", Buy, 2, 10.0)
  const EXIT := Ticket("b", "s", "005930", Sell, 2, 10.0)
  const BOUGHT := Record("1", "005930", Some(Buy), 2, 2, 0, None, Some(10.0), FullyFilled, None)
  const SOLD_ONE := Record("2", "005930", Some(Sell), 2, 1, 0, None, Some(10.0), CancelConfirmed, None)

  function PassOf(rec: Record, row: string): Snapshot {
    Snapshot([rec], [row], [], [], {}, Market(0, true, true), Policy(0, 0), None)
  }

  function BoughtFill(): Fill {
    Fill(RestFillId("a", 2), "a", Some("1"), "005930", Buy, 2, 10.0, 0, 0)
  }

  function OpenedPosition(): Position {
    Position(PositionKey("s"), "s", "005930", 2, 10.0, 1.0, 100.0, 0, true, Some("1"), None, None, None, Some(900))
  }

  /** The entry's two shares are recorded and open a position. */
  lemma EntryAdopted(l: Ledger)
    requires l == Ledger(map["a" := PlacedRow(ENTRY, "1")], [], [], [], map["s" := DECISION])
    ensures RowsOf(l, ["a"])
    ensures var q := Pass(l, ["a"], [BOUGHT], 0);
            && q.error.None? && q.ledger.orders.Keys == {"a"} && q.ledger.orders["a"].side == Buy && q.ledger.orders["a"].status == Filled && q.ledger.orders["a"].filled == 2
            && q.ledger.fills == q.ledger.applied == [BoughtFill()] && q.ledger.positions == [OpenedPosition()]
            && q.ledger.decisions == l.decisions
  {
    hide AdoptStatus, AdoptFills;
    var p, local := Progress(l, NOTHING_YET, None), l.orders["a"];
    assert "1"[0] == '1' && "a"[0] == 'a' && ["a"][..0] == [];
    assert FindRecord([BOUGHT], "1") == Some(BOUGHT);
    assert ReconcileRows(p, l.orders, [], [BOUGHT], 0) == p;
    EntryRecorded(p);
    var q := AdoptFills(p, "a", local, BOUGHT, 0).0;
    EntryOpens(q, local);
  }

  lemma EntryRecorded(p: Progress)
    requires p.ledger == Ledger(map["a" := PlacedRow(ENTRY, "1")], [], [], [], map["s" := DECISION])
    ensures var (q, on) := AdoptFills(p, "a", p.ledger.orders["a"], BOUGHT, 0);
            && on && q.error == p.error && q.ledger == p.ledger.(orders := q.ledger.orders, fills := [BoughtFill()])
            && q.ledger.orders.Keys == {"a"} && q.ledger.orders["a"].filled == 2 && q.ledger.orders["a"].requested == 2
            && q.ledger.orders["a"].side == Buy && q.ledger.orders["a"].signal == Some("s") && q.ledger.orders["a"].brokerId == Some("1")
  {
    hide Blend;
    assert "1"[0] == '1' && "a"[0] == 'a' && RestFillId("a", 2)[0] == 'r';
    assert !HasFill([], RestFillId("a", 2));
  }

  lemma EntryOpens(p: Progress, local: Order)
    requires p.error.None? && p.ledger.orders.Keys == {"a"} && local.side == Buy && local.signal == Some("s") && local.status == Acknowledged
    requires p.ledger.orders["a"].side == Buy && p.ledger.orders["a"].filled == 2 && p.ledger.orders["a"].requested == 2 && p.ledger.orders["a"].signal == Some("s")
    requires p.ledger.fills == [BoughtFill()] && p.ledger.applied == [] && p.ledger.positions == [] && p.ledger.decisions == map["s" := DECISION]
    ensures var q := AdoptStatus(p, "a", local, BOUGHT, 0);
            && q.error.None? && q.ledger.orders.Keys == {"a"} && q.ledger.orders["a"].side == Buy && q.ledger.orders["a"].status == Filled && q.ledger.orders["a"].filled == 2
            && q.ledger.fills == q.ledger.applied == [BoughtFill()] && q.ledger.positions == [OpenedPosition()]
            && q.ledger.decisions == p.ledger.decisions
  {
    hide Materialize;
    assert "1"[0] == '1' && "a"[0] == 'a';
    var l := UpdateStatus(p.ledger, "a", Filled, Some("1"), Some(2), Some(10.0), 0).value.0;
    OpensPosition(l);
  }

  lemma OpensPosition(l: Ledger)
    requires l.orders.Keys == {"a"} && l.orders["a"].signal == Some("s")
    requires l.fills == [BoughtFill()] && l.applied == [] && l.positions == []
    ensures Materialize(l, "a", EntryPlan(DECISION)) == Done((l.(positions := [OpenedPosition()], applied := [BoughtFill()]), 1))
  {
    hide RestFillId, TakeIn, Unapplied, TakeInAll;
    var f, plan := BoughtFill(), EntryPlan(DECISION);
    assert "a"[0] == 'a';
    OnlyFillPending(f);
    EntryTaken(l.orders["a"]);
    assert [] + [f] == [f];
    OneTaken([], l.orders["a"], f, plan);
  }

  lemma OnlyFillPending(f: Fill)
    requires f == BoughtFill()
    ensures Unapplied([f], [], "a") == [f]
  {
    hide RestFillId;
    UnappliedInsert([], [], f);
  }

  lemma OneTaken(ps: seq<Position>, o: Order, f: Fill, plan: Plan)
    ensures TakeInAll(ps, o, "a", [f], plan) == TakeIn(ps, o, "a", f, plan)
  {
    hide TakeIn;
    assert [f][..0] == [];
    assert TakeInAll(ps, o, "a", [], plan) == Done(ps);
  }

  lemma EntryTaken(o: Order)
    requires o.signal == Some("s")
    ensures EntryPlan(DECISION).WellFormed() && TakeIn([], o, "a", BoughtFill(), EntryPlan(DECISION)) == Done([OpenedPosition()])
  {
    hide RestFillId;
    assert FirstOpen([], "005930") == -1 && !KeyTaken([], "s");
    assert InsertPosition([], OpenedPosition()) == [OpenedPosition()];
  }

  /** A pass over one row that leaves every order finished. */
  lemma PassStep(w: World, rec: Record, row: string)
    requires RowsOf(w.ledger, [row]) && Truthful([rec], w.broker) && !w.cancelRequested
    requires var q := Pass(w.ledger, [row], [rec], 0);
             q.error.None? && forall c :: c in q.ledger.orders ==> q.ledger.orders[c].status.Terminal()
    ensures Enabled(w, Supervise(PassOf(rec, row)))
    ensures Next(w, Supervise(PassOf(rec, row)))
            == w.(ledger := Pass(w.ledger, [row], [rec], 0).ledger, review := true, blockEntries := true)
  {
    hide ReconcileRows, RowsOf, Truthful;
    var s, l := PassOf(rec, row), Pass(w.ledger, [row], [rec], 0).ledger;
    assert ActiveBuyIds(l) == {} && OpenIds(l) == {};
    assert AfterCancels(w, s, l) == Desk(l, w.pending, [], 0, 0, 0, None);
    assert AfterManage(s, AfterCancels(w, s, l)) == Desk(l, w.pending, [], 0, 0, 0, None);
  }

  /** The world once the entry's shares are held. */
  ghost predicate Entered(w: World) {
    && w.trader == Idle && !w.cancelRequested && w.maxRequotes == 1 && w.calls == ["a"]
    && w.broker == map["1" := BrokerOrder("a", "005930", Buy, 2, 2, 20.0, None)]
    && w.ledger.orders.Keys == {"a"} && w.ledger.orders["a"].side == Buy
    && w.ledger.orders["a"].status == Filled && w.ledger.orders["a"].filled == 2
    && w.ledger.fills == w.ledger.applied == [BoughtFill()] && w.ledger.positions == [OpenedPosition()]
  }

  lemma Entering() returns (ws: seq<World>, es: seq<Event>)
    ensures Steps(ws, es) && es != [] && ws[0] == Initial(map["s" := DECISION], 1) && Entered(ws[|es|])
  {
    hide Next, Enabled, ReconcileRows, AfterPlacing;
    var w0 := Initial(map["s" := DECISION], 1);
    assert "1"[0] == '1' && "a"[0] == 'a' && "s"[0] == 's';
    VetsEntry(w0);
    var w1 := Next(w0, VetEntry(ENTRY));
    var mid, steps := OrderPlaced(w1, ENTRY, "1");
    EntryPlaced(w1, mid[5]);
    var w6 := mid[5];
    FillsEntry(w6);
    var w7 := Next(w6, BrokerFills("1", 2, 10.0));
    EntryAdopted(w7.ledger);
    EntryIsTrue(w7);
    PassStep(w7, BOUGHT, "a");
    var w8 := Next(w7, Supervise(PassOf(BOUGHT, "a")));
    assert Steps([w0, w1], [VetEntry(ENTRY)]);
    StepsJoin([w0, w1], [VetEntry(ENTRY)], mid, steps);
    ws, es := [w0, w1] + mid[1..], [VetEntry(ENTRY)] + steps;
    var tail, last := [w6, w7, w8], [BrokerFills("1", 2, 10.0), Supervise(PassOf(BOUGHT, "a"))];
    assert Steps(tail, last);
    StepsJoin(ws, es, tail, last);
    ws, es := ws + tail[1..], es + last;
  }

  lemma VetsEntry(w: World)
    requires w.trader == Idle
    ensures Enabled(w, VetEntry(ENTRY)) && Next(w, VetEntry(ENTRY)) == w.(trader := Vetted(ENTRY))
  {
    hide Sensible, AfterSupervise;
  }

  lemma EntryPlaced(w: World, v: World)
    requires w == Initial(map["s" := DECISION], 1).(trader := Vetted(ENTRY)) && v == AfterPlacing(w, ENTRY, "1")
    ensures v.ledger == Ledger(map["a" := PlacedRow(ENTRY, "1")], [], [], [], map["s" := DECISION])
    ensures v == World(v.ledger, map[], false, false, false, map["1" := BrokerOrder("a", "005930", Buy, 2, 0, 0.0, None)], ["a"], Idle, 1)
  {
    assert [] + ["a"] == ["a"];
  }

  lemma FillsEntry(w: World)
    requires w.broker == map["1" := BrokerOrder("a", "005930", Buy, 2, 0, 0.0, None)]
    ensures Enabled(w, BrokerFills("1", 2, 10.0))
    ensures Next(w, BrokerFills("1", 2, 10.0)) == w.(broker := map["1" := BrokerOrder("a", "005930", Buy, 2, 2, 20.0, None)])
  {
    hide Sensible, AfterSupervise;
    assert Times(10.0, 2) == 20.0;
  }

  lemma EntryIsTrue(w: World)
    requires w.broker == map["1" := BrokerOrder("a", "005930", Buy, 2, 2, 20.0, None)]
    ensures Truthful([BOUGHT], w.broker)
  {
    assert Times(10.0, 2) == 20.0;
  }

  // ---------------------------------------------------- the exit sold in part

  lemma ReadsAndVets(w: World, signal: string, client: string)
    requires w.trader == Idle && w.ledger.positions == [OpenedPosition()] && w.maxRequotes == 1
    requires !Unresolved(w.ledger.orders, "005930", Sell) && |ExitOrders(w.ledger.orders, "s", "005930")| <= 1
    ensures Enabled(w, ReadPosition("005930"))
    ensures Next(w, ReadPosition("005930")) == w.(trader := SawPosition("005930", "s", 2))
    ensures Enabled(w.(trader := SawPosition("005930", "s", 2)), VetExit(client, 10.0))
    ensures Next(w.(trader := SawPosition("005930", "s", 2)), VetExit(client, 10.0))
            == w.(trader := Vetted(Ticket(client, "s", "005930", Sell, 2, 10.0)))
  {
    hide Sensible, AfterSupervise, ExitOrders, Unresolved;
    assert FirstOpen([OpenedPosition()], "005930") == 0;
  }

  /** The exit is at the broker, sold one share and was closed, and the trading
      loop has read the position again. */
  ghost predicate HalfSold(w: World) {
    && w.trader == SawPosition("005930", "s", 2) && !w.cancelRequested && w.maxRequotes == 1 && w.calls == ["a", "b"]
    && w.ledger.orders.Keys == {"a", "b"} && w.ledger.orders["b"] == PlacedRow(EXIT, "2")
    && w.ledger.orders["a"].status == Filled && w.ledger.orders["a"].side == Buy && w.ledger.orders["a"].symbol == "005930"
    && w.ledger.orders["a"].filled == 2 && Unapplied(w.ledger.fills, w.ledger.applied, "a") == []
    && "2" in w.broker && w.broker["2"] == BrokerOrder("b", "005930", Sell, 2, 1, 10.0, Some(WasCancelled))
  }

  lemma ExitReachesBroker(w: World) returns (ws: seq<World>, es: seq<Event>)
    requires Entered(w)
    ensures Steps(ws, es) && |es| == 7 && ws[0] == w
    ensures ws[7] == AfterPlacing(w.(trader := Vetted(EXIT)), EXIT, "2")
  {
    hide Next, Enabled;
    assert "2"[0] == '2' && "b"[0] == 'b' && "s"[0] == 's';
    assert ExitOrders(w.ledger.orders, "s", "005930") == {} && OpenQuantity([OpenedPosition()], "005930") == 2;
    ReadsAndVets(w, "s", "b");
    var w1 := Next(w, ReadPosition("005930"));
    var w2 := Next(w1, VetExit("b", 10.0));
    var mid, steps := OrderPlaced(w2, EXIT, "2");
    assert Steps([w, w1, w2], [ReadPosition("005930"), VetExit("b", 10.0)]);
    StepsJoin([w, w1, w2], [ReadPosition("005930"), VetExit("b", 10.0)], mid, steps);
    ws, es := [w, w1, w2] + mid[1..], [ReadPosition("005930"), VetExit("b", 10.0)] + steps;
  }

  lemma SellsAndCloses(w: World)
    requires "2" in w.broker && w.broker["2"] == BrokerOrder("b", "005930", Sell, 2, 0, 0.0, None)
    ensures Enabled(w, BrokerFills("2", 1, 10.0))
    ensures var v := Next(w, BrokerFills("2", 1, 10.0));
            && Enabled(v, BrokerCloses("2", WasCancelled))
            && Next(v, BrokerCloses("2", WasCancelled))
               == w.(broker := w.broker["2" := BrokerOrder("b", "005930", Sell, 2, 1, 10.0, Some(WasCancelled))])
  {
    hide Sensible, AfterSupervise;
    assert Times(10.0, 1) == 10.0;
  }

  lemma Exiting(w: World) returns (ws: seq<World>, es: seq<Event>)
    requires Entered(w) && w.ledger.orders["a"].symbol == "005930"
    ensures Steps(ws, es) && es != [] && ws[0] == w && HalfSold(ws[|es|])
  {
    hide Next, Enabled, OpenQuantity, ExitOrders;
    ws, es := ExitReachesBroker(w);
    var v := ws[7];
    SellsAndCloses(v);
    var v1 := Next(v, BrokerFills("2", 1, 10.0));
    var v2 := Next(v1, BrokerCloses("2", WasCancelled));
    ReadsAgain(v2);
    var tail, last := [v, v1, v2, Next(v2, ReadPosition("005930"))], [BrokerFills("2", 1, 10.0), BrokerCloses("2", WasCancelled), ReadPosition("005930")];
    assert Steps(tail, last);
    StepsJoin(ws, es, tail, last);
    ws, es := ws + tail[1..], es + last;
    AppliedFillIsTaken();
  }

  lemma ReadsAgain(w: World)
    requires w.trader == Idle && w.ledger.positions == [OpenedPosition()]
    ensures Enabled(w, ReadPosition("005930")) && Next(w, ReadPosition("005930")) == w.(trader := SawPosition("005930", "s", 2))
  {
    hide Sensible, AfterSupervise;
    assert FirstOpen([OpenedPosition()], "005930") == 0;
  }

  lemma AppliedFillIsTaken()
    ensures Unapplied([BoughtFill()], [BoughtFill()], "a") == []
  {
    var f := BoughtFill();
    assert [f][1..] == [] && Unapplied([], [f], "a") == [];
    assert [f][0].id == f.id && HasFill([f], f.id);
  }

  lemma SaleSelected(w: World)
    requires HalfSold(w)
    ensures RowsOf(w.ledger, ["b"]) && Truthful([SOLD_ONE], w.broker)
    ensures RecordOf(w.ledger.orders["b"], [SOLD_ONE]) == Some(SOLD_ONE)
  {
    hide Unapplied;
    assert Times(10.0, 1) == 10.0;
    assert FindRecord([SOLD_ONE], "2") == Some(SOLD_ONE);
  }

  /** The second pass adopts the partial sale and finishes the exit order. */
  lemma SaleAdopted(w: World)
    requires Safe(w) && HalfSold(w)
    ensures RowsOf(w.ledger, ["b"]) && Truthful([SOLD_ONE], w.broker)
    ensures var q := Pass(w.ledger, ["b"], [SOLD_ONE], 0);
            && q.error.None? && q.ledger.orders.Keys == {"a", "b"} && q.ledger.orders["a"] == w.ledger.orders["a"]
            && q.ledger.orders["b"].status == Cancelled && q.ledger.orders["b"].filled == 1 && SameIdentity(w.ledger.orders["b"], q.ledger.orders["b"])
  {
    hide PassReady, Truthful, RowsOf, FindRecord, ReconcileRows, Unapplied, BrokerBook, CallLog, TraderOk, ExitsBounded, Clean, SameIdentity;
    SaleSelected(w);
    RowsTruth(Progress(w.ledger, NOTHING_YET, None), w.broker, Reached(w), ["b"], [SOLD_ONE], 0);
    var q := Pass(w.ledger, ["b"], [SOLD_ONE], 0);
    assert "b" in ["b"] && "a" !in ["b"];
    assert Dealt(w.ledger.orders["b"], q.ledger, "b", [SOLD_ONE], 0, Clean(q.tally.reasons));
  }

  /** One share of the two is left. */
  lemma OneLeft(w: World)
    requires Safe(w) && w.calls == ["a", "b"] && w.ledger.orders.Keys == {"a", "b"}
    requires var a := w.ledger.orders["a"]; a.side == Buy && a.symbol == "005930" && a.filled == 2
    requires var b := w.ledger.orders["b"]; b.side == Sell && b.symbol == "005930" && b.filled == 1
    ensures OpenQuantity(w.ledger.positions, "005930") <= 1
  {
    hide OpenQuantity, PassReady, BrokerBook, CallLog, TraderOk, ExitsBounded;
    LocalTotals(w, "005930", Buy);
    LocalTotals(w, "005930", Sell);
    SafeLedger(w);
    HeldIsDifference(w.ledger, "005930");
    var bought, sold := FilledLocally(w, "005930", Buy), FilledLocally(w, "005930", Sell);
    SumOfTwo("a", "b", bought);
    SumOfTwo("a", "b", sold);
  }

  lemma SumOfTwo(c: string, d: string, f: string -> int)
    ensures Sum([c, d], f) == f(c) + f(d)
  {
    assert [c, d][1..] == [d] && [d][1..] == [];
    assert Sum([d], f) == f(d) + Sum([], f);
  }

  lemma ClaimsTooMuch(w: World)
    requires w.trader == SawPosition("005930", "s", 2) && w.maxRequotes == 1 && w.ledger.orders.Keys == {"a", "b"}
    requires w.ledger.orders["a"].side == Buy && w.ledger.orders["b"].status == Cancelled
    ensures Enabled(w, VetExit("c", 10.0)) && Enabled(Next(w, VetExit("c", 10.0)), ClaimIt(0))
    ensures Next(Next(w, VetExit("c", 10.0)), ClaimIt(0))
            == w.(ledger := PutOrder(w.ledger, "c", TicketRow(Ticket("c", "s", "005930", Sell, 2, 10.0), Intent)),
                  trader := Claimed(Ticket("c", "s", "005930", Sell, 2, 10.0)))
  {
    hide Sensible, AfterSupervise, OpenQuantity;
    assert "c"[0] == 'c' && "s"[0] == 's';
    var exits := ExitOrders(w.ledger.orders, "s", "005930");
    assert exits <= {"b"};
    SmallSet(exits, "b");
  }

  lemma SmallSet(s: set<string>, x: string)
    requires s <= {x}
    ensures |s| <= 1
  {
    if x in s {
      assert s == {x};
    } else {
      assert s == {};
    }
  }

  /** A run whose last step claims a SELL of two shares while one is open. */
  lemma ExitCanOutgrowPosition() returns (ws: seq<World>, es: seq<Event>)
    ensures Run(ws, es) && es != [] && es[|es| - 1].ClaimIt? && "c" in ws[|es|].ledger.orders
    ensures LiveSale(ws[|es|].ledger.orders["c"]) && !SaleCovered(ws[|es|].ledger, "c")
    ensures !ClaimFits(ws[|es| - 1], es[|es| - 1])
  {
    hide Next, Enabled, Safe, Entered, HalfSold;
    ws, es := Entering();
    InitialSafe(map["s" := DECISION], 1);
    StepsSafe(ws, es);
    EntrySymbol(ws[|es|]);
    var mid, steps := Exiting(ws[|es|]);
    StepsSafe(mid, steps);
    StepsJoin(ws, es, mid, steps);
    ws, es := ws + mid[1..], es + steps;
    var tail, last := Outgrowing(mid[|steps|]);
    StepsJoin(ws, es, tail, last);
    ws, es := ws + tail[1..], es + last;
    StepsAreRun(ws, es);
  }

  lemma EntrySymbol(w: World)
    requires Safe(w) && Entered(w)
    ensures w.ledger.orders["a"].symbol == "005930"
  {
    hide PassReady, CallLog, TraderOk, ExitsBounded;
    assert BrokerKnown(w, "1");
  }

  lemma Outgrowing(w: World) returns (ws: seq<World>, es: seq<Event>)
    requires Safe(w) && HalfSold(w)
    ensures Steps(ws, es) && |es| == 3 && ws[0] == w && es[2].ClaimIt?
    ensures "c" in ws[3].ledger.orders && LiveSale(ws[3].ledger.orders["c"]) && !SaleCovered(ws[3].ledger, "c") && !ClaimFits(ws[2], es[2])
  {
    hide Next, Enabled, Safe, OpenQuantity, ReconcileRows;
    SaleAdopted(w);
    PassStep(w, SOLD_ONE, "b");
    var w1 := Next(w, Supervise(PassOf(SOLD_ONE, "b")));
    EventKeeps(w, Supervise(PassOf(SOLD_ONE, "b")));
    OneLeft(w1);
    ClaimsTooMuch(w1);
    var w2 := Next(w1, VetExit("c", 10.0));
    var w3 := Next(w2, ClaimIt(0));
    ws, es := [w, w1, w2, w3], [Supervise(PassOf(SOLD_ONE, "b")), VetExit("c", 10.0), ClaimIt(0)];
    VettedTicket(w1);
  }

  lemma VettedTicket(w: World)
    requires Enabled(w, VetExit("c", 10.0)) && Enabled(Next(w, VetExit("c", 10.0)), ClaimIt(0))
    requires w.trader == SawPosition("005930", "s", 2)
    ensures var v := Next(w, VetExit("c", 10.0)); v.trader == Vetted(Ticket("c", "s", "005930", Sell, 2, 10.0)) && v.ledger == w.ledger
  {
    hide Sensible, AfterSupervise, ExitOrders, Unresolved;
  }
}
