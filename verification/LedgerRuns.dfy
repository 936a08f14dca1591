/** The ledger's invariant over every sequence of its transactions. */
module LedgerRuns {
  import opened Wrappers
  import opened Text
  import opened LedgerTables
  import opened LedgerInvariant
  import opened AverageCost

  ghost predicate LedgerOk(l: Ledger) {
    FillRows(l) && OrderRows(l) && AppliedRows(l) && PositionRows(l.positions, l.applied)
  }

  /** What no transaction can break, whatever it writes over an order's count and average. */
  ghost predicate TablesOk(l: Ledger) {
    && FillRows(l) && AppliedRows(l) && PositionRows(l.positions, l.applied)
    && forall c :: c in l.orders ==> l.orders[c].filled <= l.orders[c].requested
  }

  /** One committed or refused transaction. */
  datatype Call =
    | ClaimCall(client: string, signal: Option<string>, symbol: string, side: Side, quantity: int, price: real, at: int)
    | SubmittingCall(client: string, at: int)
    | RecordCall(client: string, brokerId: string, at: int)
    | UnknownCall(client: string, reason: Option<string>, at: int)
    | UpdateCall(client: string, status: Status, number: Option<string>, filled: Option<int>, average: Option<real>, at: int)
    | FillCall(request: FillRequest)
    | MaterializeCall(client: string, plan: Plan)

  function After<T>(l: Ledger, r: Outcome<(Ledger, T)>): Ledger {
    if r.Done? then r.value.0 else l
  }

  function Execute(l: Ledger, call: Call): Ledger {
    match call
    case ClaimCall(c, signal, symbol, side, quantity, price, at) =>
      After(l, Claim(l, c, signal, symbol, side, quantity, price, at))
    case SubmittingCall(c, at) => After(l, MarkSubmitting(l, c, at))
    case RecordCall(c, b, at) => After(l, RecordSubmission(l, c, b, at))
    case UnknownCall(c, e, at) => After(l, MarkUnknown(l, c, e, at))
    case UpdateCall(c, s, b, n, a, at) => After(l, UpdateStatus(l, c, s, b, n, a, at))
    case FillCall(r) => After(l, ApplyFill(l, r))
    case MaterializeCall(c, plan) => After(l, Materialize(l, c, plan))
  }

  function ExecuteAll(l: Ledger, calls: seq<Call>): Ledger {
    if calls == [] then l else Execute(ExecuteAll(l, calls[..|calls| - 1]), calls[|calls| - 1])
  }

  // --------------------------------------------- what single writes keep

  /** Changing an order's status columns, but not its identity, count or average. */
  ghost predicate SameAccount(o: Order, p: Order) {
    && p.symbol == o.symbol && p.side == o.side && p.requested == o.requested
    && p.filled == o.filled && p.average == o.average
  }

  lemma StatusWriteKeeps(l: Ledger, c: string, o: Order)
    requires LedgerOk(l) && c in l.orders && SameAccount(l.orders[c], o)
    ensures LedgerOk(PutOrder(l, c, o))
  {
    var n := PutOrder(l, c, o);
    forall d | d in n.orders
      ensures Agrees(n.orders[d], Total(n.fills, SharesOf(d)), Worth(n.fills, MoneyOf(d)))
    {
      assert Agrees(l.orders[d], Total(l.fills, SharesOf(d)), Worth(l.fills, MoneyOf(d)));
    }
  }

  lemma NewOrderKeeps(l: Ledger, c: string, o: Order)
    requires LedgerOk(l) && c !in l.orders && o.filled == 0 && o.average == None
    ensures LedgerOk(PutOrder(l, c, o))
  {
    NoRowsNoTotal(l.fills, c);
    var n := PutOrder(l, c, o);
    forall d | d in n.orders
      ensures Agrees(n.orders[d], Total(n.fills, SharesOf(d)), Worth(n.fills, MoneyOf(d)))
    {
      assert d != c ==> Agrees(l.orders[d], Total(l.fills, SharesOf(d)), Worth(l.fills, MoneyOf(d)));
    }
  }

  /** The row a fill request inserts. */
  function RowOf(l: Ledger, r: FillRequest): Fill
    requires r.WellFormed() && r.client in l.orders
  {
    var o := l.orders[r.client];
    Fill(r.id, r.client, r.brokerId.Or(o.brokerId), o.symbol, o.side, r.quantity, r.price, r.filledAt, r.createdAt)
  }

  /** The tables with one more fill, rolled up into its order. */
  function Recorded(l: Ledger, f: Fill): Ledger
    requires f.client in l.orders
  {
    l.(fills := InsertFill(l.fills, f),
       orders := l.orders[f.client := RolledUp(l.orders[f.client], f.quantity, f.price, f.brokerId, f.filledAt)])
  }

  ghost predicate Fits(l: Ledger, f: Fill) {
    && f.client in l.orders && !HasFill(l.fills, f.id)
    && f.symbol == l.orders[f.client].symbol && f.side == l.orders[f.client].side
    && l.orders[f.client].filled + f.quantity <= l.orders[f.client].requested
  }

  lemma ApplyFillRecords(l: Ledger, r: FillRequest)
    requires ApplyFill(l, r).Done? && ApplyFill(l, r).value.1
    ensures r.WellFormed() && r.client in l.orders && Fits(l, RowOf(l, r))
    ensures ApplyFill(l, r).value.0 == Recorded(l, RowOf(l, r))
  {
  }

  /** Recording a fill makes the order's count and average those of one more fill. */
  lemma FillKeeps(l: Ledger, r: FillRequest)
    requires LedgerOk(l) && ApplyFill(l, r).Done?
    ensures LedgerOk(ApplyFill(l, r).value.0)
  {
    if ApplyFill(l, r).value.1 {
      ApplyFillRecords(l, r);
      RecordingKeeps(l, RowOf(l, r));
    }
  }

  lemma RecordingKeeps(l: Ledger, f: Fill)
    requires LedgerOk(l) && Fits(l, f)
    ensures LedgerOk(Recorded(l, f))
  {
    var n := Recorded(l, f);
    UniqueInsert(l.fills, f);
    InsertFillRows(l.fills, f);
    assert FillRows(n) && AppliedRows(n);
    forall c | c in n.orders
      ensures Agrees(n.orders[c], Total(n.fills, SharesOf(c)), Worth(n.fills, MoneyOf(c)))
    {
      RecordingAgrees(l, f, c);
    }
  }

  lemma RecordingAgrees(l: Ledger, f: Fill, c: string)
    requires OrderRows(l) && Fits(l, f) && c in l.orders
    ensures var n := Recorded(l, f);
            Agrees(n.orders[c], Total(n.fills, SharesOf(c)), Worth(n.fills, MoneyOf(c)))
  {
    var shares, money := Total(l.fills, SharesOf(c)), Worth(l.fills, MoneyOf(c));
    TotalInsert(l.fills, f, SharesOf(c));
    WorthInsert(l.fills, f, MoneyOf(c));
    assert Agrees(l.orders[c], shares, money);
    if c == f.client {
      RollUpAgrees(l.orders[c], f, shares, money);
      assert SharesOf(c)(f) == f.quantity && MoneyOf(c)(f) == f.Money();
    } else {
      assert SharesOf(c)(f) == 0 && MoneyOf(c)(f) == 0.0;
    }
  }

  lemma RollUpAgrees(o: Order, f: Fill, shares: int, money: real)
    requires Agrees(o, shares, money) && o.filled + f.quantity <= o.requested
    ensures Agrees(RolledUp(o, f.quantity, f.price, f.brokerId, f.filledAt),
                   shares + f.quantity, money + f.Money())
  {
    BlendTimes(o.filled, o.average.GetOr(0.0), f.quantity, f.price);
    assert f.Money() == f.quantity as real * f.price;
  }

  lemma MaterializeKeeps(l: Ledger, c: string, plan: Plan)
    requires FillRows(l) && AppliedRows(l) && PositionRows(l.positions, l.applied) && Materialize(l, c, plan).Done?
    ensures var n := Materialize(l, c, plan).value.0;
            && n == l.(positions := n.positions, applied := n.applied)
            && FillRows(n) && AppliedRows(n) && PositionRows(n.positions, n.applied)
    ensures OrderRows(l) ==> LedgerOk(Materialize(l, c, plan).value.0)
  {
    var fs := Unapplied(l.fills, l.applied, c);
    UnappliedUnique(l.fills, l.applied, c);
    TakeInAllKeeps(l.positions, l.applied, l.orders[c], c, fs, plan);
    var all := l.applied + fs;
    forall i, j | 0 <= i < j < |all|
      ensures all[i].id != all[j].id
    {
      if i < |l.applied| <= j {
        assert fs[j - |l.applied|] in fs && l.applied[i] in l.applied;
      }
    }
  }

  lemma RecordingKeepsTables(l: Ledger, f: Fill)
    requires TablesOk(l) && Fits(l, f)
    ensures TablesOk(Recorded(l, f))
  {
    hide PositionRows;
    UniqueInsert(l.fills, f);
    InsertFillRows(l.fills, f);
  }

  /** Every transaction, with any arguments, keeps the fills, the applications,
      the positions, and every count within its request. */
  lemma ExecuteKeepsTables(l: Ledger, call: Call)
    requires TablesOk(l)
    ensures TablesOk(Execute(l, call))
  {
    hide PositionRows;
    match call
    case FillCall(r) =>
      if ApplyFill(l, r).Done? && ApplyFill(l, r).value.1 {
        ApplyFillRecords(l, r);
        RecordingKeepsTables(l, RowOf(l, r));
      }
    case MaterializeCall(c, plan) =>
      if Materialize(l, c, plan).Done? {
        MaterializeKeeps(l, c, plan);
      }
    case _ =>
  }

  // ------------------------------------------- counts and averages of orders

  /** A status update that leaves count and average out, or gives those of the
      order's fills. */
  ghost predicate RepeatsFills(l: Ledger, c: string, filled: Option<int>, average: Option<real>) {
    var shares, money := Total(l.fills, SharesOf(c)), Worth(l.fills, MoneyOf(c));
    && (filled.Some? ==> filled.value == shares)
    && (average.Some? ==> shares > 0 && average.value == money / shares as real)
  }

  /** All calls are, but for status updates that are written and say otherwise. */
  ghost predicate Harmless(l: Ledger, call: Call) {
    call.UpdateCall? ==>
      var r := UpdateStatus(l, call.client, call.status, call.number, call.filled, call.average, call.at);
      r.Done? && r.value.1 ==> RepeatsFills(l, call.client, call.filled, call.average)
  }

  /** A written status update keeps counts and averages those of the fills if and
      only if it leaves them out or repeats them. */
  lemma UpdateKeepsIff(l: Ledger, c: string, s: Status, b: Option<string>, filled: Option<int>, average: Option<real>, at: int)
    requires LedgerOk(l)
    requires UpdateStatus(l, c, s, b, filled, average, at).Done? && UpdateStatus(l, c, s, b, filled, average, at).value.1
    ensures LedgerOk(UpdateStatus(l, c, s, b, filled, average, at).value.0) <==> RepeatsFills(l, c, filled, average)
  {
    hide PositionRows, FillRows, AppliedRows, Blank;
    var n := UpdateStatus(l, c, s, b, filled, average, at).value.0;
    UpdatePutsRow(l, c, s, b, filled, average, at);
    var shares, money := Total(l.fills, SharesOf(c)), Worth(l.fills, MoneyOf(c));
    assert Agrees(l.orders[c], shares, money);
    UpdateAgreesIff(l.orders[c], n.orders[c], filled, average, shares, money);
    SameFillTables(l, n);
    if Agrees(n.orders[c], shares, money) {
      forall d | d in n.orders
        ensures Agrees(n.orders[d], Total(n.fills, SharesOf(d)), Worth(n.fills, MoneyOf(d)))
      {
        assert Agrees(l.orders[d], Total(l.fills, SharesOf(d)), Worth(l.fills, MoneyOf(d)));
      }
    }
  }

  lemma UpdatePutsRow(l: Ledger, c: string, s: Status, b: Option<string>, filled: Option<int>, average: Option<real>, at: int)
    requires UpdateStatus(l, c, s, b, filled, average, at).Done? && UpdateStatus(l, c, s, b, filled, average, at).value.1
    ensures var n := UpdateStatus(l, c, s, b, filled, average, at).value.0;
            && c in l.orders && c in n.orders && n == PutOrder(l, c, n.orders[c])
            && n.orders[c].symbol == l.orders[c].symbol && n.orders[c].side == l.orders[c].side && n.orders[c].requested == l.orders[c].requested
            && n.orders[c].filled == (if filled.Some? then filled.value else l.orders[c].filled)
    ensures UpdateStatus(l, c, s, b, filled, average, at).value.0.orders[c].average == average.Or(l.orders[c].average)
  {
  }

  lemma SameFillTables(l: Ledger, n: Ledger)
    requires FillRows(l) && AppliedRows(l) && n.fills == l.fills && n.applied == l.applied && n.orders.Keys >= l.orders.Keys
    requires forall d :: d in l.orders ==> n.orders[d].symbol == l.orders[d].symbol && n.orders[d].side == l.orders[d].side
    ensures FillRows(n) && AppliedRows(n)
  {
  }

  lemma UpdateAgreesIff(o: Order, p: Order, filled: Option<int>, average: Option<real>, shares: int, money: real)
    requires Agrees(o, shares, money) && p.requested == o.requested && p.average == average.Or(o.average)
    requires p.filled == if filled.Some? then filled.value else o.filled
    ensures Agrees(p, shares, money) <==>
              && (filled.Some? ==> filled.value == shares)
              && (average.Some? ==> shares > 0 && average.value == money / shares as real)
  {
    if average.Some? && shares > 0 {
      MeanIffQuotient(average.value, shares as real, money);
    }
  }

  lemma MeanIffQuotient(a: real, x: real, m: real)
    requires x > 0.0
    ensures a * x == m <==> a == m / x
  {
    assert (m / x) * x == m;
    if a * x == m {
      QuotientOf(a, x, m);
    }
  }

  /** A transaction keeps the ledger's whole invariant if and only if it is not
      such an update. */
  lemma ExecuteKeepsIff(l: Ledger, call: Call)
    requires LedgerOk(l)
    ensures LedgerOk(Execute(l, call)) <==> Harmless(l, call)
  {
    hide FillRows, OrderRows, AppliedRows, PositionRows, RepeatsFills;
    match call
    case ClaimCall(c, signal, symbol, side, quantity, price, at) =>
      if Claim(l, c, signal, symbol, side, quantity, price, at).Done? && c !in l.orders {
        NewOrderKeeps(l, c, Execute(l, call).orders[c]);
      }
    case FillCall(r) =>
      if ApplyFill(l, r).Done? {
        FillKeeps(l, r);
      }
    case MaterializeCall(c, plan) =>
      if Materialize(l, c, plan).Done? {
        MaterializeKeeps(l, c, plan);
      }
    case UpdateCall(c, s, b, n, a, at) =>
      var r := UpdateStatus(l, c, s, b, n, a, at);
      if r.Done? && r.value.1 {
        UpdateKeepsIff(l, c, s, b, n, a, at);
      }
    case _ =>
      if call.client in l.orders && call.client in Execute(l, call).orders {
        StatusWriteKeeps(l, call.client, Execute(l, call).orders[call.client]);
      }
  }

  /** No update in the run writes a count or average the fills do not have. */
  ghost predicate AllHarmless(l: Ledger, calls: seq<Call>) {
    calls == [] || (AllHarmless(l, calls[..|calls| - 1]) && Harmless(ExecuteAll(l, calls[..|calls| - 1]), calls[|calls| - 1]))
  }

  lemma EmptyLedgerOk(decisions: map<string, Decision>)
    ensures LedgerOk(Ledger(map[], [], [], [], decisions)) && TablesOk(Ledger(map[], [], [], [], decisions))
  {
    var empty := Ledger(map[], [], [], [], decisions);
    assert forall s :: IsHolding(OpenRow(empty.positions, s), Replay(empty.applied, s));
  }

  /** In every reachable state fills name known orders once each, counts are
      within their requests, each fill is taken in at most once, and the open
      position of a symbol is the holding of its taken-in fills; and while no
      status update says otherwise, each order's count and average are those of
      its fills. */
  lemma {:induction false} EveryRunKeeps(decisions: map<string, Decision>, calls: seq<Call>)
    ensures TablesOk(ExecuteAll(Ledger(map[], [], [], [], decisions), calls))
    ensures AllHarmless(Ledger(map[], [], [], [], decisions), calls) ==>
              LedgerOk(ExecuteAll(Ledger(map[], [], [], [], decisions), calls))
  {
    hide LedgerOk, TablesOk, Execute, Harmless;
    var empty := Ledger(map[], [], [], [], decisions);
    if calls == [] {
      EmptyLedgerOk(decisions);
    } else {
      var front := calls[..|calls| - 1];
      EveryRunKeeps(decisions, front);
      ExecuteKeepsTables(ExecuteAll(empty, front), calls[|calls| - 1]);
      if AllHarmless(empty, calls) {
        ExecuteKeepsIff(ExecuteAll(empty, front), calls[|calls| - 1]);
      }
    }
  }

  /** Counts and averages are those of the fills all along a run if and only if
      none of its status updates says otherwise. */
  lemma {:induction false} RunKeepsIff(decisions: map<string, Decision>, calls: seq<Call>)
    ensures var empty := Ledger(map[], [], [], [], decisions);
            (forall k :: 0 <= k <= |calls| ==> LedgerOk(ExecuteAll(empty, calls[..k]))) <==> AllHarmless(empty, calls)
  {
    hide LedgerOk, Execute, Harmless;
    var empty := Ledger(map[], [], [], [], decisions);
    assert calls[..|calls|] == calls;
    if calls == [] {
      EmptyLedgerOk(decisions);
    } else {
      var front := calls[..|calls| - 1];
      RunKeepsIff(decisions, front);
      assert forall k :: 0 <= k <= |front| ==> front[..k] == calls[..k];
      if forall k :: 0 <= k <= |front| ==> LedgerOk(ExecuteAll(empty, front[..k])) {
        assert LedgerOk(ExecuteAll(empty, front[..|front|])) && front[..|front|] == front;
        ExecuteKeepsIff(ExecuteAll(empty, front), calls[|calls| - 1]);
        assert ExecuteAll(empty, calls) == Execute(ExecuteAll(empty, front), calls[|calls| - 1]);
      }
    }
  }

  /** A claimed order with a count written over it: its recorded fills are none. */
  lemma UpdateCanMisstate() returns (calls: seq<Call>)
    ensures |calls| == 2 && calls[1].UpdateCall?
    ensures !OrderRows(ExecuteAll(Ledger(map[], [], [], [], map[]), calls))
    ensures !AllHarmless(Ledger(map[], [], [], [], map[]), calls)
  {
    var empty := Ledger(map[], [], [], [], map[]);
    var claim, update := ClaimCall("a", None, "005930", Buy, 1, 1.0, 0), UpdateCall("a", Unknown, None, Some(1), None, 0);
    assert "a"[0] == 'a';
    var l := Execute(empty, claim);
    assert "a" in l.orders && l.orders["a"].filled == 0 && l.fills == [];
    calls := [claim, update];
    assert calls[..1] == [claim] && [claim][..0] == [];
    assert ExecuteAll(empty, []) == empty;
    assert ExecuteAll(empty, [claim]) == l;
    var m := ExecuteAll(empty, calls);
    assert m == Execute(l, update) && m.orders["a"].filled == 1 && m.fills == [];
    assert !Agrees(m.orders["a"], Total(m.fills, SharesOf("a")), Worth(m.fills, MoneyOf("a")));
  }

  lemma OpenQuantityIsNet(l: Ledger, symbol: string)
    requires LedgerOk(l)
    ensures OpenQuantity(l.positions, symbol) == Total(l.applied, NetOf(symbol))
  {
    OpenQuantityIsRow(l.positions, symbol);
    assert IsHolding(OpenRow(l.positions, symbol), Replay(l.applied, symbol));
    ReplayIsNet(l.applied, symbol);
  }

  /** A symbol has at most one open position; it holds the net of the fills taken
      in, at their average cost. */
  lemma OpenPositionIsHolding(l: Ledger, symbol: string, i: nat)
    requires LedgerOk(l) && i < |l.positions| && l.positions[i].open && l.positions[i].symbol == symbol
    ensures forall j :: 0 <= j < |l.positions| && l.positions[j].open && l.positions[j].symbol == symbol ==> j == i
    ensures Replay(l.applied, symbol).Some?
    ensures 0 < l.positions[i].quantity == Total(l.applied, NetOf(symbol))
    ensures l.positions[i].entry == Replay(l.applied, symbol).value.Average()
  {
    hide FillRows, OrderRows, AppliedRows, Replay, Total, IsHolding;
    OnlyOpenRow(l.positions, symbol, i);
    var held := Replay(l.applied, symbol);
    assert IsHolding(OpenRow(l.positions, symbol), held);
    HoldingFacts(l.positions[i], held);
    ReplayIsNet(l.applied, symbol);
  }

  lemma OnlyOpenRow(ps: seq<Position>, symbol: string, i: nat)
    requires OneOpenEach(ps) && i < |ps| && ps[i].open && ps[i].symbol == symbol
    ensures OpenRow(ps, symbol) == Some(ps[i])
    ensures forall j :: 0 <= j < |ps| && ps[j].open && ps[j].symbol == symbol ==> j == i
  {
    assert FirstOpen(ps, symbol) == i;
  }

  lemma HoldingFacts(p: Position, held: Option<Inventory>)
    requires IsHolding(Some(p), held)
    ensures held.Some? && 0 < p.quantity == held.value.quantity && p.entry == held.value.Average()
  {
    QuotientOf(p.entry, p.quantity as real, held.value.cost);
  }

  /** The recorded average is the mean price of the fills, and the count their sum. */
  lemma AverageIsMean(l: Ledger, c: string)
    requires LedgerOk(l) && c in l.orders
    ensures l.orders[c].filled == Total(l.fills, SharesOf(c)) <= l.orders[c].requested
    ensures l.orders[c].filled > 0 ==>
              l.orders[c].average == Some(Worth(l.fills, MoneyOf(c)) / l.orders[c].filled as real)
  {
    var n, money := l.orders[c].filled, Worth(l.fills, MoneyOf(c));
    assert Agrees(l.orders[c], Total(l.fills, SharesOf(c)), money);
    if n > 0 {
      MeanIsQuotient(l.orders[c].average, n, money);
    }
  }

  lemma MeanIsQuotient(average: Option<real>, shares: int, money: real)
    requires MeanIs(average, shares, money) && shares > 0
    ensures average == Some(money / shares as real)
  {
    QuotientOf(average.value, shares as real, money);
  }

  lemma QuotientOf(a: real, x: real, m: real)
    requires x != 0.0 && a * x == m
    ensures m / x == a
  {
  }

  /** A fill id that was recorded once is a no-op ever after, and a fill that
      would overflow its order is refused whole. */
  lemma FillOnce(l: Ledger, r: FillRequest, again: FillRequest)
    requires ApplyFill(l, r).Done? && again.id == r.id
    ensures var n := ApplyFill(l, r).value.0;
            HasFill(n.fills, r.id) && After(n, ApplyFill(n, again)) == n
    ensures r.client in l.orders && ApplyFill(l, r).value.1 ==> l.orders[r.client].filled + r.quantity <= l.orders[r.client].requested
  {
    if ApplyFill(l, r).value.1 {
      InsertFillRows(l.fills, RowOf(l, r));
      ApplyFillRecords(l, r);
      var n := ApplyFill(l, r).value.0;
      assert RowOf(l, r) in n.fills;
    }
  }

  /** After a materialisation every fill of the order is among those taken in. */
  lemma MaterializeTakesAll(l: Ledger, c: string, plan: Plan, f: Fill)
    requires LedgerOk(l) && Materialize(l, c, plan).Done? && f in l.fills && f.client == c
    ensures f in Materialize(l, c, plan).value.0.applied
    ensures HasFill(Materialize(l, c, plan).value.0.applied, f.id)
  {
    hide FillRows, AppliedRows, OrderRows, PositionRows, TakeInAll, HasFill, Unapplied, Blank, Plan.WellFormed;
    AppliedOrPending(l, f);
    MemberHasId(Materialize(l, c, plan).value.0.applied, f);
  }

  /** A recorded fill was taken in before, or is pending for its order. */
  lemma AppliedOrPending(l: Ledger, f: Fill)
    requires FillRows(l) && AppliedRows(l) && f in l.fills
    ensures f in l.applied + Unapplied(l.fills, l.applied, f.client)
  {
    if HasFill(l.applied, f.id) {
      var i :| 0 <= i < |l.applied| && l.applied[i].id == f.id;
      assert l.applied[i] in l.applied;
      SameIdSameFill(l.fills, l.applied[i], f);
    }
  }

  lemma MemberHasId(fs: seq<Fill>, f: Fill)
    requires f in fs
    ensures HasFill(fs, f.id)
  {
  }

  /** A successful materialisation takes in every fill of the order that was not
      taken in, exactly once; a second call finds nothing and changes nothing. */
  lemma MaterializeOnce(l: Ledger, c: string, plan: Plan, later: Plan)
    requires LedgerOk(l) && Materialize(l, c, plan).Done? && later.WellFormed()
    ensures var (n, count) := Materialize(l, c, plan).value;
            && n == l.(positions := n.positions, applied := l.applied + Unapplied(l.fills, l.applied, c))
            && count == |Unapplied(l.fills, l.applied, c)|
            && (forall f :: f in n.fills && f.client == c ==> multiset(n.applied)[f] == 1)
            && Materialize(n, c, later) == Done((n, 0))
  {
    var n := Materialize(l, c, plan).value.0;
    MaterializeKeeps(l, c, plan);
    forall f | f in n.fills && f.client == c
      ensures multiset(n.applied)[f] == 1
    {
      MaterializeTakesAll(l, c, plan, f);
      UniqueIdsCountOne(n.applied, f);
    }
    var rest := Unapplied(n.fills, n.applied, c);
    if rest != [] {
      assert rest[0] in rest;
      MaterializeTakesAll(l, c, plan, rest[0]);
      assert false;
    }
    NothingToTakeIn(n, c, later);
  }

  lemma NothingToTakeIn(l: Ledger, c: string, plan: Plan)
    requires plan.WellFormed() && !Blank(c) && c in l.orders && Unapplied(l.fills, l.applied, c) == []
    ensures Materialize(l, c, plan) == Done((l, 0))
  {
    assert l.applied + [] == l.applied;
  }

  lemma SameIdSameFill(fs: seq<Fill>, f: Fill, g: Fill)
    requires UniqueIds(fs) && f in fs && g in fs && f.id == g.id
    ensures f == g
  {
  }

  lemma {:induction false} UniqueIdsCountOne(fs: seq<Fill>, f: Fill)
    requires UniqueIds(fs) && f in fs
    ensures multiset(fs)[f] == 1
  {
    assert fs == [fs[0]] + fs[1..];
    if f == fs[0] {
      assert f !in fs[1..];
      assert multiset(fs[1..])[f] == 0;
    } else {
      UniqueIdsCountOne(fs[1..], f);
    }
  }

  /** What a recorded fill leaves of its order: FILLED at its instant once all that
      was requested is, PARTIALLY_FILLED before, and a broker number if it had
      none; and of every other order nothing. */
  lemma RecordedColumns(l: Ledger, r: FillRequest)
    requires ApplyFill(l, r).Done? && ApplyFill(l, r).value.1
    ensures r.client in l.orders && r.quantity > 0 && l.orders[r.client].filled + r.quantity <= l.orders[r.client].requested
    ensures var m, o := ApplyFill(l, r).value.0, l.orders[r.client];
            var full := o.filled + r.quantity == o.requested;
            && m.orders.Keys == l.orders.Keys && (forall c :: c in l.orders && c != r.client ==> m.orders[c] == l.orders[c])
            && m.orders[r.client] == o.(filled := o.filled + r.quantity, average := m.orders[r.client].average,
                                        status := if full then Filled else PartiallyFilled,
                                        brokerId := if o.brokerId.Some? then o.brokerId else r.brokerId,
                                        updatedAt := r.filledAt, completedAt := if full then Some(r.filledAt) else None, error := None)
            && m.applied == l.applied && m.positions == l.positions && m.decisions == l.decisions
  {
    hide Blend, Blank, StockCode, HasFill, InsertFill;
  }

  /** Fills are taken in by instant and id. */
  lemma {:induction false} TakenInTableOrder(fs: seq<Fill>, applied: seq<Fill>, client: string)
    requires InTableOrder(fs)
    ensures InTableOrder(Unapplied(fs, applied, client))
  {
    if fs != [] {
      TakenInTableOrder(fs[1..], applied, client);
      var rest := Unapplied(fs[1..], applied, client);
      forall k | 0 <= k < |rest|
        ensures FillBefore(fs[0], rest[k])
      {
        assert rest[k] in rest;
        var i :| 0 <= i < |fs[1..]| && fs[1..][i] == rest[k];
        assert fs[i + 1] == rest[k];
      }
    }
  }
}
