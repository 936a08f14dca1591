/** `pipeline/broker_reconciliation.py`: one pass over the orders the ledger
    still has business with, adopting what the broker reports about them. */
module Reconciliation {
  import opened Wrappers
  import opened Text
  import opened LedgerTables
  import opened BrokerRecords
  import opened Database

  datatype Reason =
    | OrdersUnavailable
    | LocalUnknown(client: string)
    | Unconfirmed(client: string)
    | RecordMissing(client: string)
    | IdentityMismatch(client: string)
    | FillRegression(client: string)
    | QuantityMismatch(client: string)
    | FillApplyFailed(client: string)
    | StatusNotRecognised(client: string)
    | MaterializeFailed(client: string)
    | BrokerOnlyOpenOrder(number: string)
    | AccountUnavailable
    | PositionMismatch(symbol: string, local: int, broker: int)

  /** The price of the newly reported shares, from two cumulative averages. */
  function IncrementalPrice(o: Order, rec: Record): Outcome<real>
    requires o.filled < rec.filled
  {
    if rec.average.None? then Done(o.price)
    else if o.filled == 0 || o.average.None? then Done(rec.average.value)
    else
      var price := (rec.average.value * rec.filled as real - o.average.value * o.filled as real)
                   / (rec.filled - o.filled) as real;
      if price <= 0.0 then Raised(NonPositiveIncrement) else Done(price)
  }

  function RestFillId(client: string, cumulative: nat): string {
    "reconcile:" + client + ":cum:" + Decimal(cumulative)
  }

  function RestFill(client: string, rec: Record, quantity: int, price: real, now: int): FillRequest {
    FillRequest(RestFillId(client, rec.filled), client, quantity, price, now, Some(rec.number),
                Some(rec.symbol), rec.side, now)
  }

  /** `materialize_order_fills` with the entry plan recorded for the order. */
  function MaterializeLocal(l: Ledger, client: string, o: Order): Outcome<(Ledger, nat)> {
    if o.side == Sell then Materialize(l, client, Plan(None, None, None, "broker_fill"))
    else if o.signal.None? || o.signal.value !in l.decisions then Raised(MissingEntryRisk)
    else Materialize(l, client, EntryPlan(l.decisions[o.signal.value]))
  }

  function EntryPlan(d: Decision): Plan {
    var holding := if d.holding.None? || d.holding.value == 0 then 900 else d.holding.value;
    Plan(d.stop, d.take, Some(holding), "broker_fill")
  }

  /** What a pass has to report so far. */
  datatype Tally = Tally(reasons: seq<Reason>, updated: nat, newFills: nat, taken: nat) {
    function Because(r: Reason): Tally {
      this.(reasons := reasons + [r])
    }
  }

  const NOTHING_YET := Tally([], 0, 0, 0)

  /** Where a pass stands. `error` is an exception that escapes the pass. */
  datatype Progress = Progress(ledger: Ledger, tally: Tally, error: Option<Error>) {
    function Because(r: Reason): Progress {
      this.(tally := tally.Because(r))
    }
  }

  /** The checks a matched record must pass before anything is adopted from it. */
  function Objection(client: string, local: Order, rec: Record): Option<Reason> {
    if !SameOrder(local, rec) then Some(IdentityMismatch(client))
    else if rec.filled < local.filled then Some(FillRegression(client))
    else if rec.ordered != 0 && rec.ordered != local.requested then Some(QuantityMismatch(client))
    else None
  }

  function ReconcileRow(p: Progress, client: string, local: Order, records: seq<Record>, now: int): Progress {
    var p := if local.status == Unknown then p.Because(LocalUnknown(client)) else p;
    if local.brokerId.None? || local.brokerId.value == "" then p.Because(Unconfirmed(client))
    else
      var rec := FindRecord(records, local.brokerId.value);
      if rec.None? then p.Because(RecordMissing(client))
      else if Objection(client, local, rec.value).Some? then p.Because(Objection(client, local, rec.value).value)
      else
        var q := AdoptFills(p, client, local, rec.value, now);
        if q.1 then AdoptStatus(q.0, client, local, rec.value, now) else q.0
  }

  /** Nothing is adopted from a record of another instrument or side, of fewer
      fills than are known, or of another quantity; the pass says so. */
  lemma MismatchAdoptsNothing(p: Progress, client: string, local: Order, records: seq<Record>, now: int)
    requires RecordOf(local, records).Some?
    requires var rec := RecordOf(local, records).value;
             rec.symbol != local.symbol || rec.side != Some(local.side) || rec.filled < local.filled
             || (rec.ordered != 0 && rec.ordered != local.requested)
    ensures var q := ReconcileRow(p, client, local, records, now);
            && q.ledger == p.ledger && q.error == p.error && |q.tally.reasons| > |p.tally.reasons|
            && q.tally.reasons[|q.tally.reasons| - 1] in {IdentityMismatch(client), FillRegression(client), QuantityMismatch(client)}
  {
  }

  /** Records the newly reported shares; the flag says whether the row goes on. */
  function AdoptFills(p: Progress, client: string, local: Order, rec: Record, now: int): (Progress, bool)
    requires local.filled <= rec.filled
  {
    if rec.filled == local.filled then (p, true)
    else
      match IncrementalPrice(local, rec)
      case Raised(e) => (p.(error := Some(e)), false)
      case Done(price) =>
        match ApplyFill(p.ledger, RestFill(client, rec, rec.filled - local.filled, price, now))
        case Raised(_) => (p.Because(FillApplyFailed(client)), false)
        case Done((l, inserted)) =>
          (p.(ledger := l, tally := p.tally.(newFills := p.tally.newFills + if inserted then 1 else 0)), true)
  }

  /** The broker's status, except that a pending cancel stays pending until terminal. */
  function NextStatus(local: Order, s: Status): Status {
    if local.status == CancelPending && (s == Acknowledged || s == PartiallyFilled) then CancelPending else s
  }

  function AdoptStatus(p: Progress, client: string, local: Order, rec: Record, now: int): Progress {
    var s := LocalStatus(rec.status);
    if s.None? then p.Because(StatusNotRecognised(client))
    else
      match UpdateStatus(p.ledger, client, NextStatus(local, s.value), Some(rec.number), Some(rec.filled), rec.average, now)
      case Raised(e) => p.(error := Some(e))
      case Done((l, changed)) =>
        var q := p.(ledger := l, tally := p.tally.(updated := p.tally.updated + if changed then 1 else 0));
        match MaterializeLocal(l, client, local)
        case Raised(_) => q.Because(MaterializeFailed(client))
        case Done((m, n)) => q.(ledger := m, tally := q.tally.(taken := q.tally.taken + n))
  }

  /** The rows in turn; an escaping exception ends the pass. */
  function ReconcileRows(p: Progress, orders: map<string, Order>, rows: seq<string>, records: seq<Record>, now: int): Progress
    requires forall c :: c in rows ==> c in orders
  {
    if rows == [] then p
    else
      var q := ReconcileRows(p, orders, rows[..|rows| - 1], records, now);
      if q.error.Some? then q
      else ReconcileRow(q, rows[|rows| - 1], orders[rows[|rows| - 1]], records, now)
  }

  /** Rows of interest: orders not yet terminal, or with fills no position has taken in. */
  predicate Selected(l: Ledger, client: string) {
    client in l.orders && (!l.orders[client].status.Terminal() || Unapplied(l.fills, l.applied, client) != [])
  }

  function SelectedIds(l: Ledger): set<string> {
    set c | c in l.orders && Selected(l, c)
  }

  predicate MatchedNumber(orders: map<string, Order>, rows: seq<string>, number: string)
    requires forall c :: c in rows ==> c in orders
  {
    number != "" && exists c | c in rows :: orders[c].brokerId == Some(number)
  }

  predicate BrokerOnly(rec: Record) {
    rec.remaining > 0 || rec.status == Unfilled || rec.status == PartlyFilled
  }

  /** The working broker orders that none of the rows is about. */
  function Foreign(orders: map<string, Order>, rows: seq<string>, records: seq<Record>): (r: seq<Reason>)
    requires forall c :: c in rows ==> c in orders
    ensures r == [] <==> forall rec :: rec in records && BrokerOnly(rec) ==> MatchedNumber(orders, rows, rec.number)
  {
    if records == [] then []
    else
      var rec := records[|records| - 1];
      assert records == records[..|records| - 1] + [rec];
      Foreign(orders, rows, records[..|records| - 1])
      + if !MatchedNumber(orders, rows, rec.number) && BrokerOnly(rec) then [BrokerOnlyOpenOrder(rec.number)] else []
  }

  function QuantityIn(account: map<string, int>, symbol: string): int {
    if symbol in account then account[symbol] else 0
  }

  // ------------------------------------------------------------- row order

  predicate RowBefore(orders: map<string, Order>, a: string, b: string)
    requires a in orders && b in orders
  {
    orders[a].createdAt < orders[b].createdAt || (orders[a].createdAt == orders[b].createdAt && LexLess(a, b))
  }

  /** `rows` lists the ids once each, in `ORDER BY created_at, client_order_id`. */
  ghost predicate RowList(orders: map<string, Order>, ids: set<string>, rows: seq<string>) {
    && (forall c :: c in rows <==> c in ids)
    && ids <= orders.Keys
    && (forall i, j :: 0 <= i < j < |rows| ==> rows[i] != rows[j] && !RowBefore(orders, rows[j], rows[i]))
  }

  function InsertRow(orders: map<string, Order>, rows: seq<string>, c: string): (r: seq<string>)
    requires c in orders && forall d :: d in rows ==> d in orders
    ensures forall d :: d in r <==> d in rows || d == c
  {
    if rows == [] || RowBefore(orders, c, rows[0]) then [c] + rows
    else
      assert forall d :: d in rows <==> d == rows[0] || d in rows[1..];
      [rows[0]] + InsertRow(orders, rows[1..], c)
  }

  lemma RowBeforeOrders(orders: map<string, Order>, a: string, b: string, c: string)
    requires a in orders && b in orders && c in orders
    ensures RowBefore(orders, a, b) ==> !RowBefore(orders, b, a)
    ensures RowBefore(orders, a, b) && !RowBefore(orders, c, b) ==> !RowBefore(orders, c, a)
    ensures !RowBefore(orders, a, b) && !RowBefore(orders, b, c) ==> !RowBefore(orders, a, c)
  {
    LexLessTotal(a, b);
    LexLessTotal(b, c);
    LexLessTotal(a, c);
    if LexLess(a, b) && LexLess(c, a) {
      LexLessTransitive(c, a, b);
    }
    if LexLess(a, c) && LexLess(c, b) {
      LexLessTransitive(a, c, b);
    }
  }

  lemma {:induction false} InsertRowSorted(orders: map<string, Order>, ids: set<string>, rows: seq<string>, c: string)
    requires RowList(orders, ids, rows) && c in orders && c !in ids
    ensures RowList(orders, ids + {c}, InsertRow(orders, rows, c))
  {
    if rows == [] {
    } else if RowBefore(orders, c, rows[0]) {
      forall j | 0 <= j < |rows|
        ensures !RowBefore(orders, rows[j], c)
      {
        RowBeforeOrders(orders, c, rows[0], rows[j]);
        assert j > 0 ==> !RowBefore(orders, rows[j], rows[0]);
      }
    } else {
      var rest := InsertRow(orders, rows[1..], c);
      assert rows[0] in rows;
      assert RowList(orders, ids - {rows[0]}, rows[1..]) by {
        assert forall d :: d in rows <==> d == rows[0] || d in rows[1..];
        assert rows[0] !in rows[1..];
      }
      InsertRowSorted(orders, ids - {rows[0]}, rows[1..], c);
      forall j | 0 <= j < |rest|
        ensures rest[j] != rows[0] && !RowBefore(orders, rest[j], rows[0])
      {
        assert rest[j] in rest;
        if rest[j] != c {
          var i :| 0 <= i < |rows[1..]| && rows[1..][i] == rest[j];
          assert rows[i + 1] == rest[j];
        }
      }
    }
  }

  method OrderedRows(orders: map<string, Order>, ids: set<string>) returns (rows: seq<string>)
    requires ids <= orders.Keys
    ensures RowList(orders, ids, rows)
  {
    rows := [];
    var left := ids;
    while left != {}
      invariant left <= ids
      invariant RowList(orders, ids - left, rows)
      decreases left
    {
      var c :| c in left;
      InsertRowSorted(orders, ids - left, rows, c);
      rows := InsertRow(orders, rows, c);
      assert ids - left + {c} == ids - (left - {c});
      left := left - {c};
    }
    assert ids - {} == ids;
  }

  // -------------------------------------------------------------- the pass

  method MaterializeLocalFills(db: Database, client: string, local: Order) returns (r: Outcome<nat>)
    modifies db`positions, db`applied
    ensures Transacted(old(db.State()), db.State(), MaterializeLocal(old(db.State()), client, local), r)
  {
    if local.side == Buy {
      if local.signal.None? || local.signal.value !in db.decisions {
        return Raised(MissingEntryRisk);
      }
      r := db.MaterializeOrderFills(client, EntryPlan(db.decisions[local.signal.value]));
    } else {
      r := db.MaterializeOrderFills(client, Plan(None, None, None, "broker_fill"));
    }
  }

  method AdoptStatusOf(db: Database, client: string, local: Order, rec: Record, now: int, before: Tally)
    returns (tally: Tally, error: Option<Error>)
    modifies db`orders, db`positions, db`applied
    ensures Progress(db.State(), tally, error)
            == AdoptStatus(Progress(old(db.State()), before, None), client, local, rec, now)
  {
    tally, error := before, None;
    var s := LocalStatus(rec.status);
    if s.None? {
      tally := tally.Because(StatusNotRecognised(client));
      return;
    }
    var next := s.value;
    if local.status == CancelPending && (next == Acknowledged || next == PartiallyFilled) {
      next := CancelPending;
    }
    var changed := db.UpdateBrokerOrderStatus(client, next, Some(rec.number), Some(rec.filled), rec.average, now);
    if changed.Raised? {
      error := Some(changed.error);
      return;
    }
    if changed.value {
      tally := tally.(updated := tally.updated + 1);
    }
    var n := MaterializeLocalFills(db, client, local);
    if n.Raised? {
      tally := tally.Because(MaterializeFailed(client));
    } else {
      tally := tally.(taken := tally.taken + n.value);
    }
  }

  method ReconcileOrder(db: Database, client: string, local: Order, records: seq<Record>, now: int, before: Tally)
    returns (tally: Tally, error: Option<Error>)
    modifies db`orders, db`fills, db`positions, db`applied
    ensures Progress(db.State(), tally, error)
            == ReconcileRow(Progress(old(db.State()), before, None), client, local, records, now)
  {
    hide IncrementalPrice, ApplyFill, AdoptStatus, FindRecord, RestFill;
    tally, error := before, None;
    if local.status == Unknown {
      tally := tally.Because(LocalUnknown(client));
    }
    if local.brokerId.None? || local.brokerId.value == "" {
      tally := tally.Because(Unconfirmed(client));
      return;
    }
    var found := FindRecord(records, local.brokerId.value);
    if found.None? {
      tally := tally.Because(RecordMissing(client));
      return;
    }
    var rec := found.value;
    var objection := Objection(client, local, rec);
    if objection.Some? {
      tally := tally.Because(objection.value);
      return;
    }
    var delta := rec.filled - local.filled;
    if delta != 0 {
      var price := IncrementalPrice(local, rec);
      if price.Raised? {
        error := Some(price.error);
        return;
      }
      var inserted := db.ApplyBrokerFill(RestFill(client, rec, delta, price.value, now));
      if inserted.Raised? {
        tally := tally.Because(FillApplyFailed(client));
        return;
      }
      if inserted.value {
        tally := tally.(newFills := tally.newFills + 1);
      }
    }
    tally, error := AdoptStatusOf(db, client, local, rec, now, tally);
  }

  /** The loop over the selected rows, each as it was when selected. */
  method ReconcileOrders(db: Database, rows: seq<string>, records: seq<Record>, now: int)
    returns (tally: Tally, error: Option<Error>)
    requires forall c :: c in rows ==> c in db.orders
    modifies db`orders, db`fills, db`positions, db`applied
    ensures Progress(db.State(), tally, error)
            == ReconcileRows(Progress(old(db.State()), NOTHING_YET, None), old(db.orders), rows, records, now)
  {
    var selected := db.orders;
    ghost var start := Progress(db.State(), NOTHING_YET, None);
    tally, error := NOTHING_YET, None;
    var i := 0;
    while i < |rows| && error.None?
      invariant 0 <= i <= |rows|
      invariant Progress(db.State(), tally, error) == ReconcileRows(start, selected, rows[..i], records, now)
    {
      assert rows[..i + 1][..i] == rows[..i];
      tally, error := ReconcileOrder(db, rows[i], selected[rows[i]], records, now, tally);
      i := i + 1;
    }
    if error.Some? {
      StoppedRowsStay(start, selected, rows, records, now, i);
    }
    assert rows[..|rows|] == rows;
  }

  lemma {:induction false} StoppedRowsStay(p: Progress, orders: map<string, Order>, rows: seq<string>, records: seq<Record>, now: int, n: nat)
    requires forall c :: c in rows ==> c in orders
    requires n <= |rows| && ReconcileRows(p, orders, rows[..n], records, now).error.Some?
    ensures ReconcileRows(p, orders, rows, records, now) == ReconcileRows(p, orders, rows[..n], records, now)
    decreases |rows|
  {
    if n == |rows| {
      assert rows[..n] == rows;
    } else {
      var front := rows[..|rows| - 1];
      assert front[..n] == rows[..n];
      StoppedRowsStay(p, orders, front, records, now, n);
    }
  }

  /** Symbols without repeats, in the order `sorted` gives them. */
  ghost predicate Ascending(symbols: seq<string>) {
    forall i, j :: 0 <= i < j < |symbols| ==> LexLess(symbols[i], symbols[j])
  }

  function InsertSymbol(symbols: seq<string>, s: string): (r: seq<string>)
    ensures forall t :: t in r <==> t in symbols || t == s
  {
    if symbols == [] || LexLess(s, symbols[0]) then [s] + symbols
    else
      assert forall t :: t in symbols <==> t == symbols[0] || t in symbols[1..];
      [symbols[0]] + InsertSymbol(symbols[1..], s)
  }

  lemma {:induction false} InsertAscends(symbols: seq<string>, s: string)
    requires Ascending(symbols) && s !in symbols
    ensures Ascending(InsertSymbol(symbols, s))
  {
    if symbols == [] {
    } else if LexLess(s, symbols[0]) {
      forall j | 0 < j < |symbols|
        ensures LexLess(s, symbols[j])
      {
        LexLessTransitive(s, symbols[0], symbols[j]);
      }
    } else {
      var rest := InsertSymbol(symbols[1..], s);
      InsertAscends(symbols[1..], s);
      LexLessTotal(s, symbols[0]);
      assert forall k :: 0 <= k < |symbols[1..]| ==> LexLess(symbols[0], symbols[1..][k]);
      assert forall k :: 0 <= k < |rest| ==> rest[k] in rest;
    }
  }

  method SortedSymbols(symbols: set<string>) returns (list: seq<string>)
    ensures Ascending(list) && forall s :: s in list <==> s in symbols
  {
    list := [];
    var left := symbols;
    while left != {}
      invariant left <= symbols && Ascending(list)
      invariant forall s :: s in list <==> s in symbols - left
      decreases left
    {
      var s :| s in left;
      InsertAscends(list, s);
      list := InsertSymbol(list, s);
      left := left - {s};
    }
  }

  /** The differing symbols among these, with both quantities. */
  function Mismatches(symbols: seq<string>, ps: seq<Position>, account: map<string, int>): (r: seq<Reason>)
    ensures forall reason :: reason in r <==>
              reason.PositionMismatch? && reason.symbol in symbols
              && reason == PositionMismatch(reason.symbol, OpenQuantity(ps, reason.symbol), QuantityIn(account, reason.symbol))
              && OpenQuantity(ps, reason.symbol) != QuantityIn(account, reason.symbol)
  {
    if symbols == [] then []
    else
      var s := symbols[|symbols| - 1];
      assert symbols == symbols[..|symbols| - 1] + [s];
      Mismatches(symbols[..|symbols| - 1], ps, account)
      + if OpenQuantity(ps, s) != QuantityIn(account, s) then [PositionMismatch(s, OpenQuantity(ps, s), QuantityIn(account, s))] else []
  }

  function HeldSymbols(ps: seq<Position>): set<string> {
    set i | 0 <= i < |ps| && ps[i].open :: ps[i].symbol
  }

  /** The symbols either side mentions, in order. */
  ghost predicate Compared(symbols: seq<string>, ps: seq<Position>, account: map<string, int>) {
    && Ascending(symbols)
    && forall s :: s in symbols <==> s in account || exists i :: 0 <= i < |ps| && ps[i].open && ps[i].symbol == s
  }

  /** Open quantity and account quantity of every symbol either side mentions:
      the mismatches are those of all symbols there are. */
  method ComparePositions(db: Database, account: map<string, int>) returns (reasons: seq<Reason>, ghost symbols: seq<string>)
    ensures Compared(symbols, db.positions, account) && reasons == Mismatches(symbols, db.positions, account)
    ensures forall s :: PositionMismatch(s, OpenQuantity(db.positions, s), QuantityIn(account, s)) in reasons
                        <==> OpenQuantity(db.positions, s) != QuantityIn(account, s)
  {
    hide OpenQuantity, QuantityIn, LexLess, Ascending, HeldSymbols, Compared;
    reasons := [];
    var list := SortedSymbols(HeldSymbols(db.positions) + account.Keys);
    symbols := list;
    var i := 0;
    while i < |list|
      invariant 0 <= i <= |list| && reasons == Mismatches(list[..i], db.positions, account)
    {
      assert list[..i + 1][..i] == list[..i];
      var local, broker := OpenQuantity(db.positions, list[i]), QuantityIn(account, list[i]);
      if local != broker {
        reasons := reasons + [PositionMismatch(list[i], local, broker)];
      }
      i := i + 1;
    }
    assert list[..|list|] == list;
    ListCompares(list, db.positions, account);
    AllMismatches(list, db.positions, account);
  }

  lemma ListCompares(list: seq<string>, ps: seq<Position>, account: map<string, int>)
    requires Ascending(list) && forall s :: s in list <==> s in HeldSymbols(ps) + account.Keys
    ensures Compared(list, ps, account)
  {
    hide LexLess, Ascending;
  }

  /** A symbol nobody mentions has no quantity on either side. */
  lemma AllMismatches(symbols: seq<string>, ps: seq<Position>, account: map<string, int>)
    requires Compared(symbols, ps, account)
    ensures forall s :: PositionMismatch(s, OpenQuantity(ps, s), QuantityIn(account, s)) in Mismatches(symbols, ps, account)
                        <==> OpenQuantity(ps, s) != QuantityIn(account, s)
  {
    hide OpenQuantity, Ascending;
    forall s | s !in symbols
      ensures OpenQuantity(ps, s) == 0 == QuantityIn(account, s)
    {
      NothingOpen(ps, s);
    }
  }

  lemma {:induction false} NothingOpen(ps: seq<Position>, s: string)
    requires forall i :: 0 <= i < |ps| && ps[i].open ==> ps[i].symbol != s
    ensures OpenQuantity(ps, s) == 0
  {
    if ps != [] {
      NothingOpen(ps[1..], s);
    }
  }

  datatype Report = Report(updated: nat, newFills: nat, materialized: nat, reasons: seq<Reason>)

  function AccountReasons(symbols: seq<string>, ps: seq<Position>, account: Option<map<string, int>>): seq<Reason> {
    if account.None? then [AccountUnavailable] else Mismatches(symbols, ps, account.value)
  }

  /** The snapshot shows something still working under a number no row carries. */
  ghost predicate Unexplained(orders: map<string, Order>, rows: seq<string>, records: seq<Record>, n: string)
    requires forall c :: c in rows ==> c in orders
  {
    && (exists rec :: rec in records && rec.number == n && (rec.remaining > 0 || rec.status == Unfilled || rec.status == PartlyFilled))
    && (n == "" || forall c :: c in rows ==> orders[c].brokerId != Some(n))
  }

  lemma {:induction false} ForeignIsUnexplained(orders: map<string, Order>, rows: seq<string>, records: seq<Record>, n: string)
    requires forall c :: c in rows ==> c in orders
    ensures BrokerOnlyOpenOrder(n) in Foreign(orders, rows, records) <==> Unexplained(orders, rows, records, n)
  {
    if records != [] {
      var front, rec := records[..|records| - 1], records[|records| - 1];
      assert records == front + [rec];
      ForeignIsUnexplained(orders, rows, front, n);
    }
  }

  lemma {:induction false} OnlyForeign(orders: map<string, Order>, rows: seq<string>, records: seq<Record>)
    requires forall c :: c in rows ==> c in orders
    ensures forall r :: r in Foreign(orders, rows, records) ==> r.BrokerOnlyOpenOrder?
  {
    if records != [] {
      OnlyForeign(orders, rows, records[..|records| - 1]);
    }
  }

  lemma ForeignEmptyIff(orders: map<string, Order>, rows: seq<string>, records: seq<Record>)
    requires forall c :: c in rows ==> c in orders
    ensures Foreign(orders, rows, records) == [] <==> forall n :: !Unexplained(orders, rows, records, n)
    ensures forall n :: BrokerOnlyOpenOrder(n) in Foreign(orders, rows, records) <==> Unexplained(orders, rows, records, n)
  {
    hide Foreign, Unexplained;
    forall n
      ensures BrokerOnlyOpenOrder(n) in Foreign(orders, rows, records) <==> Unexplained(orders, rows, records, n)
    {
      ForeignIsUnexplained(orders, rows, records, n);
    }
    OnlyForeign(orders, rows, records);
    if Foreign(orders, rows, records) != [] {
      var r := Foreign(orders, rows, records)[0];
      assert r in Foreign(orders, rows, records) && r == BrokerOnlyOpenOrder(r.number);
    }
  }

  /** A row's reasons are about its own order. */
  lemma RowGivesNoForeign(p: Progress, client: string, local: Order, records: seq<Record>, now: int, n: string)
    ensures BrokerOnlyOpenOrder(n) in ReconcileRow(p, client, local, records, now).tally.reasons ==> BrokerOnlyOpenOrder(n) in p.tally.reasons
  {
    hide IncrementalPrice, ApplyFill, UpdateStatus, MaterializeLocal, FindRecord, RestFill;
  }

  lemma {:induction false} RowsGiveNoForeign(p: Progress, orders: map<string, Order>, rows: seq<string>, records: seq<Record>, now: int, n: string)
    requires forall c :: c in rows ==> c in orders
    ensures BrokerOnlyOpenOrder(n) in ReconcileRows(p, orders, rows, records, now).tally.reasons ==> BrokerOnlyOpenOrder(n) in p.tally.reasons
  {
    hide ReconcileRow;
    if rows != [] {
      RowsGiveNoForeign(p, orders, rows[..|rows| - 1], records, now, n);
      var q := ReconcileRows(p, orders, rows[..|rows| - 1], records, now);
      RowGivesNoForeign(q, rows[|rows| - 1], orders[rows[|rows| - 1]], records, now, n);
    }
  }

  /** The broker's working orders none of the selected rows is about. */
  method ForeignOrders(orders: map<string, Order>, rows: seq<string>, records: seq<Record>) returns (reasons: seq<Reason>)
    requires forall c :: c in rows ==> c in orders
    ensures reasons == Foreign(orders, rows, records)
  {
    reasons := [];
    var i := 0;
    while i < |records|
      invariant 0 <= i <= |records| && reasons == Foreign(orders, rows, records[..i])
    {
      var rec := records[i];
      assert records[..i + 1][..i] == records[..i];
      if !MatchedNumber(orders, rows, rec.number) && BrokerOnly(rec) {
        reasons := reasons + [BrokerOnlyOpenOrder(rec.number)];
      }
      i := i + 1;
    }
    assert records[..|records|] == records;
  }

  /** What the three parts of the report's reasons say together. */
  lemma ReasonsTogether(before: Progress, orders: map<string, Order>, rows: seq<string>, records: seq<Record>, now: int, last: seq<Reason>)
    requires (forall c :: c in rows ==> c in orders) && before.tally.reasons == [] && forall r :: r in last ==> !r.BrokerOnlyOpenOrder?
    ensures var fromRows := ReconcileRows(before, orders, rows, records, now).tally.reasons;
            var all := Distinct(fromRows + Foreign(orders, rows, records) + last);
            && (all == [] <==> fromRows == [] && (forall n :: !Unexplained(orders, rows, records, n)) && last == [])
            && (forall n :: BrokerOnlyOpenOrder(n) in all <==> Unexplained(orders, rows, records, n))
  {
    hide ReconcileRows, Foreign, Unexplained;
    var fromRows := ReconcileRows(before, orders, rows, records, now).tally.reasons;
    EmptyParts(fromRows, Foreign(orders, rows, records), last);
    ForeignEmptyIff(orders, rows, records);
    forall n
      ensures BrokerOnlyOpenOrder(n) !in fromRows
    {
      RowsGiveNoForeign(before, orders, rows, records, now, n);
    }
  }

  /** A bounded pass: `records` or `account` absent stands for a failed query. The
      report counts what the rows did, and gives the rows' reasons, the foreign
      orders and the account's mismatches in this order, each once. An exception
      that escapes leaves the two review flags as they were. */
  method ReconcileBrokerState(db: Database, records: Option<seq<Record>>, account: Option<map<string, int>>, now: int)
    returns (r: Outcome<Report>, ghost rows: seq<string>, ghost symbols: seq<string>)
    modifies db`orders, db`fills, db`positions, db`applied, db`review, db`blockEntries
    ensures records.None? ==> r == Done(Report(0, 0, 0, [OrdersUnavailable])) && db.State() == old(db.State())
    ensures records.Some? ==>
              && RowList(old(db.orders), SelectedIds(old(db.State())), rows)
              && var p := ReconcileRows(Progress(old(db.State()), NOTHING_YET, None), old(db.orders), rows, records.value, now);
                 && db.State() == p.ledger
                 && (if p.error.Some? then r == Raised(p.error.value)
                     else && (account.Some? ==> Compared(symbols, db.positions, account.value))
                          && r == Done(Report(p.tally.updated, p.tally.newFills, p.tally.taken,
                                              Distinct(p.tally.reasons + Foreign(old(db.orders), rows, records.value)
                                                       + AccountReasons(symbols, db.positions, account)))))
    ensures records.Some? && r.Done? ==>
              (r.value.reasons == [] <==>
                && ReconcileRows(Progress(old(db.State()), NOTHING_YET, None), old(db.orders), rows, records.value, now).tally.reasons == []
                && (forall n :: !Unexplained(old(db.orders), rows, records.value, n))
                && account.Some? && forall s :: OpenQuantity(db.positions, s) == QuantityIn(account.value, s))
    ensures records.Some? && r.Done? ==>
              forall n :: BrokerOnlyOpenOrder(n) in r.value.reasons <==> Unexplained(old(db.orders), rows, records.value, n)
    ensures if r.Done? then db.review == db.blockEntries == (r.value.reasons != [])
            else db.review == old(db.review) && db.blockEntries == old(db.blockEntries)
  {
    hide ReconcileRows, OpenQuantity, Foreign, Mismatches, Unexplained, Compared, Distinct;
    rows, symbols := [], [];
    if records.None? {
      OneReason(OrdersUnavailable);
      assert NOTHING_YET.Because(OrdersUnavailable).reasons == [OrdersUnavailable];
      r := Finish(db, NOTHING_YET.Because(OrdersUnavailable));
      return;
    }
    var list := OrderedRows(db.orders, SelectedIds(db.State()));
    rows := list;
    var before := db.orders;
    ghost var start := Progress(db.State(), NOTHING_YET, None);
    var tally, error := ReconcileOrders(db, list, records.value, now);
    if error.Some? {
      r := Raised(error.value);
      return;
    }
    var foreign := ForeignOrders(before, list, records.value);
    tally := tally.(reasons := tally.reasons + foreign);
    if account.None? {
      tally := tally.Because(AccountUnavailable);
    } else {
      var mismatches;
      mismatches, symbols := ComparePositions(db, account.value);
      NoMismatch(symbols, db.positions, account.value);
      tally := tally.(reasons := tally.reasons + mismatches);
    }
    ReasonsTogether(start, before, list, records.value, now, AccountReasons(symbols, db.positions, account));
    r := Finish(db, tally);
  }

  lemma OneReason(r: Reason)
    ensures Distinct([r]) == [r]
  {
    assert [r][..0] == [];
  }

  lemma NoMismatch(symbols: seq<string>, ps: seq<Position>, account: map<string, int>)
    requires Compared(symbols, ps, account)
    ensures Mismatches(symbols, ps, account) == [] <==> forall s :: OpenQuantity(ps, s) == QuantityIn(account, s)
  {
    hide OpenQuantity;
    AllMismatches(symbols, ps, account);
    var found := Mismatches(symbols, ps, account);
    assert found != [] ==> found[0] in found;
  }

  lemma EmptyParts(a: seq<Reason>, b: seq<Reason>, c: seq<Reason>)
    ensures Distinct(a + b + c) == [] <==> a == [] && b == [] && c == []
  {
    var all := a + b + c;
    assert all != [] ==> all[0] in all;
    assert Distinct(all) != [] ==> Distinct(all)[0] in Distinct(all);
  }

  /** `tuple(dict.fromkeys(reasons))` */
  function Distinct(reasons: seq<Reason>): (r: seq<Reason>)
    ensures forall x :: x in r <==> x in reasons
    ensures forall i, j :: 0 <= i < j < |r| ==> r[i] != r[j]
  {
    if reasons == [] then []
    else
      var front := Distinct(reasons[..|reasons| - 1]);
      assert reasons == reasons[..|reasons| - 1] + [reasons[|reasons| - 1]];
      if reasons[|reasons| - 1] in front then front else front + [reasons[|reasons| - 1]]
  }

  method Finish(db: Database, tally: Tally) returns (r: Outcome<Report>)
    modifies db`review, db`blockEntries
    ensures r == Done(Report(tally.updated, tally.newFills, tally.taken, Distinct(tally.reasons)))
    ensures db.review == db.blockEntries == (tally.reasons != []) == (r.value.reasons != [])
  {
    var reasons := Distinct(tally.reasons);
    assert tally.reasons != [] ==> tally.reasons[0] in reasons;
    db.review := reasons != [];
    db.blockEntries := reasons != [];
    r := Done(Report(tally.updated, tally.newFills, tally.taken, reasons));
  }
}
