/** Safety of every run of the service. */
module ServiceTheorems {
  import opened Wrappers
  import opened Text
  import opened LedgerTables
  import opened LedgerInvariant
  import opened LedgerRuns
  import opened BrokerRecords
  import opened Reconciliation
  import opened OrderManagement
  import opened TruthfulBroker
  import opened ReconcileTruth
  import opened PassTruth
  import opened ReconcileTheorems
  import opened ManageTruth
  import opened ServiceRun
  import opened ServiceSafety

  lemma EventKeeps(w: World, e: Event)
    requires Safe(w) && Enabled(w, e)
    ensures Safe(Next(w, e))
  {
    hide Safe, Sensible;
    match e
    case ClaimIt(at) => ClaimKeeps(w, at);
    case MarkIt(at) => MarkKeeps(w, at);
    case Guard(allowed) => GuardKeeps(w, allowed);
    case CallBroker(number, accepted, replied) => CallKeeps(w, number, accepted, replied);
    case Finish(at) =>
      if w.trader.Answered? && w.trader.number.Some? {
        RecordKeeps(w, at);
      } else {
        UnknownKeeps(w, at);
      }
    case BrokerFills(n, quantity, price) =>
      PositiveMoney(price, quantity);
      NumberNotBlank(w, n);
      BrokerStepKeeps(w, n, Next(w, e).broker[n]);
    case BrokerCloses(n, how) =>
      NumberNotBlank(w, n);
      BrokerStepKeeps(w, n, Next(w, e).broker[n]);
    case Supervise(s) => SuperviseKeeps(w, s);
    case _ => ReadingKeeps(w, e);
  }

  lemma ReadingKeeps(w: World, e: Event)
    requires Safe(w) && Enabled(w, e)
    requires e.ReadPosition? || e.VetExit? || e.VetEntry? || e.Crash? || e.OperatorCancelsBuys? || e.QueryFails?
    ensures Safe(Next(w, e))
  {
    hide PassReady, BrokerBook, ExitOrders, Unresolved, OpenQuantity;
    TraderOnlyKeeps(w, Next(w, e));
  }

  lemma InitialSafe(decisions: map<string, Decision>, maxRequotes: nat)
    ensures Safe(Initial(decisions, maxRequotes))
  {
    var w := Initial(decisions, maxRequotes);
    EveryRunKeeps(decisions, []);
    forall signal, symbol
      ensures |ExitOrders(w.ledger.orders, signal, symbol)| <= maxRequotes + 1
    {
      assert ExitOrders(w.ledger.orders, signal, symbol) == {};
    }
  }

  /** Every state of every run is safe. */
  lemma {:induction false} EveryRunSafe(ws: seq<World>, es: seq<Event>, i: nat)
    requires Run(ws, es) && i < |ws|
    ensures Safe(ws[i])
  {
    hide Safe, Next, Enabled, Initial;
    if i == 0 {
      InitialSafe(ws[0].ledger.decisions, ws[0].maxRequotes);
    } else {
      EveryRunSafe(ws, es, i - 1);
      EventKeeps(ws[i - 1], es[i - 1]);
      assert ws[i - 1 + 1] == Next(ws[i - 1], es[i - 1]);
    }
  }

  /** No oversell, in any state of any run: at most one unresolved SELL per
      symbol; one the broker may know of asks for no more than the open
      position; every recorded sale has left its position; and at most
      `maxRequotes + 1` SELL orders exist per position signal. */
  lemma NoOversell(ws: seq<World>, es: seq<Event>, i: nat, symbol: string, signal: string)
    requires Run(ws, es) && i < |ws|
    ensures var w := ws[i];
            && (forall c, d :: (c in w.ledger.orders && d in w.ledger.orders && w.ledger.orders[c].symbol == symbol
                                && w.ledger.orders[d].symbol == symbol && LiveSale(w.ledger.orders[c])
                                && LiveSale(w.ledger.orders[d])) ==> c == d)
            && (forall c :: c in w.calls && c in w.ledger.orders && LiveSale(w.ledger.orders[c]) ==>
                  w.ledger.orders[c].requested - w.ledger.orders[c].filled
                  <= OpenQuantity(w.ledger.positions, w.ledger.orders[c].symbol))
            && (forall f :: f in w.ledger.fills && f.side == Sell ==> HasFill(w.ledger.applied, f.id))
            && OpenQuantity(w.ledger.positions, symbol) == Total(w.ledger.applied, NetOf(symbol))
            && |ExitOrders(w.ledger.orders, signal, symbol)| <= w.maxRequotes + 1
  {
    hide ExitOrders, OpenQuantity;
    EveryRunSafe(ws, es, i);
    var w := ws[i];
    OpenQuantityIsNet(w.ledger, symbol);
    forall c | c in w.calls && c in w.ledger.orders && LiveSale(w.ledger.orders[c])
      ensures w.ledger.orders[c].requested - w.ledger.orders[c].filled
              <= OpenQuantity(w.ledger.positions, w.ledger.orders[c].symbol)
    {
      assert c in Reached(w) && SaleCovered(w.ledger, c);
    }
  }

  /** In no run does a supervisor pass raise, complain of a record, refuse a
      fill, or fail to take a sale into its position. */
  lemma PassesNeverFail(ws: seq<World>, es: seq<Event>, i: nat)
    requires Run(ws, es) && i < |es| && es[i].Supervise?
    ensures var q := AfterReconcile(ws[i], es[i].snapshot);
            && q.error.None?
            && (forall r :: r in q.tally.reasons ==> Honest(ws[i].ledger, r))
            && AllLevel(ws[i + 1].ledger, es[i].snapshot.records)
  {
    hide PassReady, BrokerBook, CallLog, TraderOk, ExitsBounded, AllLevel, CancelBuyRows, ManageRows;
    EveryRunSafe(ws, es, i);
    var w, s := ws[i], es[i].snapshot;
    assert Enabled(ws[i], es[i]) && ws[i + 1] == Next(ws[i], es[i]);
    SelectedExist(w.ledger, s.rows);
    RowsTruth(Progress(w.ledger, NOTHING_YET, None), w.broker, Reached(w), s.rows, s.records, s.market.now);
    PassKeeps(w, s, Reached(w));
  }

  lemma SelectedExist(l: Ledger, rows: seq<string>)
    requires RowsOf(l, rows)
    ensures forall c :: c in rows ==> c in l.orders
  {
    forall c | c in rows
      ensures c in l.orders
    {
      assert Selected(l, c);
    }
  }

  /** The broker is called at most once per client order id, whatever crashes. */
  lemma CalledAtMostOnce(ws: seq<World>, es: seq<Event>, i: nat)
    requires Run(ws, es) && i < |ws|
    ensures forall j, k :: 0 <= j < k < |ws[i].calls| ==> ws[i].calls[j] != ws[i].calls[k]
    ensures forall m, n :: m in ws[i].broker && n in ws[i].broker && ws[i].broker[m].client == ws[i].broker[n].client ==> m == n
  {
    EveryRunSafe(ws, es, i);
  }
}
