/** How often an order is asked to be cancelled, whatever the broker's records
    say: no truth is assumed of them here. */
module CancelOnce {
  import opened Wrappers
  import opened Text
  import opened LedgerTables
  import opened LedgerRuns
  import opened BrokerRecords
  import opened Reconciliation
  import opened OrderManagement
  import opened PassTruth

  /** The order-inquiry parser reads a row with fills as at least partly filled. */
  ghost predicate Parsed(records: seq<Record>) {
    forall r :: r in records && r.status == NotRecognised ==> r.filled == 0
  }

  /** One part of a supervisor iteration. */
  datatype Work =
    | ReconcileWork(rows: seq<string>, records: seq<Record>, now: int)
    | CancelBuysWork(rows: seq<string>, records: seq<Record>, acknowledged: set<string>, now: int)
    | ManageWork(rows: seq<string>, records: seq<Record>, acknowledged: set<string>, market: Market, policy: Policy)

  /** The rows are each known and listed once, and the operator's cancel-all
      lists working BUYs only. */
  ghost predicate Listed(l: Ledger, k: Work) {
    && NoRepeats(k.rows) && Parsed(k.records)
    && (forall c :: c in k.rows ==> c in l.orders)
    && (k.CancelBuysWork? ==> forall c :: c in k.rows ==> c in ActiveBuyIds(l))
  }

  /** Ledger and markers after the work, and the cancel requests it sent. */
  ghost function Worked(d: Desk, k: Work): Desk
    requires Listed(d.ledger, k)
  {
    var start := Desk(d.ledger, d.pending, [], 0, 0, 0, None);
    match k
    case ReconcileWork(rows, records, now) =>
      start.(ledger := ReconcileRows(Progress(d.ledger, NOTHING_YET, None), d.ledger.orders, rows, records, now).ledger)
    case CancelBuysWork(rows, records, acknowledged, now) => CancelBuyRows(start, d.ledger.orders, rows, records, acknowledged, now)
    case ManageWork(rows, records, acknowledged, market, policy) =>
      ManageRows(start, d.ledger.orders, rows, records, acknowledged, market, policy)
  }

  ghost predicate History(ds: seq<Desk>, ks: seq<Work>) {
    && |ds| == |ks| + 1
    && forall i :: 0 <= i < |ks| ==> Listed(ds[i].ledger, ks[i]) && ds[i + 1] == Worked(ds[i], ks[i])
  }

  // ----------------------------------------------------------- who is asked

  /** From `d` to `e`: markers stay, requests are appended, and each appended
      request is for a listed order, at most one each. */
  ghost predicate Asked(d: Desk, e: Desk, rows: seq<string>) {
    && (forall c :: c in d.pending ==> c in e.pending)
    && e.ledger.orders.Keys == d.ledger.orders.Keys
    && |d.sent| <= |e.sent| && e.sent[..|d.sent|] == d.sent
    && (forall i :: |d.sent| <= i < |e.sent| ==> e.sent[i] in rows)
    && (forall i, j :: |d.sent| <= i < j < |e.sent| ==> e.sent[i] != e.sent[j])
  }

  ghost predicate RowAsked(d: Desk, e: Desk, c: string) {
    && (forall b :: b in d.pending ==> b in e.pending)
    && e.ledger == PutRow(d.ledger, e.ledger, c)
    && (e.sent == d.sent || e.sent == d.sent + [c])
  }

  ghost function PutRow(l: Ledger, m: Ledger, c: string): Ledger {
    if c in l.orders && c in m.orders then l.(orders := l.orders[c := m.orders[c]]) else l
  }

  lemma CopyTouches(l: Ledger, c: string, s: Status, rec: Record, now: int)
    requires c in l.orders
    ensures CopyStatus(l, c, s, rec, now).Done? ==>
              var m := CopyStatus(l, c, s, rec, now).value.0; c in m.orders && m == PutRow(l, m, c)
  {
    hide Blank;
  }

  lemma SetAsideTouches(d: Desk, c: string, now: int)
    requires c in d.ledger.orders
    ensures var e := SetAside(d, c, now); c in e.ledger.orders && RowAsked(d, e, c) && e.sent == d.sent && e.pending == d.pending
  {
    hide Blank;
  }

  lemma RequestAsks(d: Desk, c: string, rec: Record, acknowledged: bool, now: int)
    requires c in d.ledger.orders
    ensures RowAsked(d, RequestCancel(d, c, rec, acknowledged, now), c)
  {
    hide SetAside, CopyStatus;
    CopyTouches(d.ledger, c, CancelPending, rec, now);
    SetAsideTouches(d, c, now);
    var r := CopyStatus(d.ledger, c, CancelPending, rec, now);
    if r.Done? {
      SetAsideTouches(d.(ledger := r.value.0, sent := d.sent + [c]), c, now);
    }
  }

  lemma ManageRowAsks(d: Desk, c: string, local: Order, records: seq<Record>, acknowledged: set<string>, m: Market, policy: Policy)
    requires c in d.ledger.orders
    ensures var e := ManageRow(d, c, local, records, acknowledged, m, policy);
            RowAsked(d, e, c) && (e.sent != d.sent ==> c !in d.pending && (local.status == Acknowledged || local.status == PartiallyFilled))
  {
    hide FindRecord, Blank, SetAside, CopyStatus, RequestCancel, Stale, SameOrder;
    var rec := RecordOf(local, records);
    SetAsideTouches(d, c, m.now);
    if rec.Some? {
      RequestAsks(d, c, rec.value, rec.value.number in acknowledged, m.now);
      var s := LocalStatus(rec.value.status);
      CopyTouches(d.ledger, c, if s.Some? && s.value.Terminal() then s.value else CancelPending, rec.value, m.now);
    }
  }

  lemma CancelBuyRowAsks(d: Desk, c: string, local: Order, records: seq<Record>, acknowledged: set<string>, now: int)
    requires c in d.ledger.orders
    ensures RowAsked(d, CancelBuyRow(d, c, local, records, acknowledged, now), c)
  {
    hide FindRecord, Blank, SetAside, CopyStatus, RequestCancel;
    var rec := RecordOf(local, records);
    SetAsideTouches(d, c, now);
    if rec.Some? {
      RequestAsks(d, c, rec.value, rec.value.number in acknowledged, now);
    }
  }

  lemma AskedMore(d: Desk, e: Desk, f: Desk, rows: seq<string>, c: string)
    requires Asked(d, e, rows) && RowAsked(e, f, c) && c !in rows && c in e.ledger.orders
    ensures Asked(d, f, rows + [c])
  {
  }

  lemma {:induction false} ManageAsks(d: Desk, rows: seq<string>, records: seq<Record>, acknowledged: set<string>, m: Market, policy: Policy)
    requires NoRepeats(rows) && forall c :: c in rows ==> c in d.ledger.orders
    ensures var e := ManageRows(d, d.ledger.orders, rows, records, acknowledged, m, policy);
            Asked(d, e, rows)
            && (forall i :: |d.sent| <= i < |e.sent| ==>
                  e.sent[i] !in d.pending && e.sent[i] in d.ledger.orders
                  && (d.ledger.orders[e.sent[i]].status == Acknowledged || d.ledger.orders[e.sent[i]].status == PartiallyFilled))
            && (forall b :: b in d.ledger.orders && b !in rows ==> e.ledger.orders[b] == d.ledger.orders[b])
  {
    hide ManageRow;
    if rows != [] {
      var front, c := rows[..|rows| - 1], rows[|rows| - 1];
      assert rows == front + [c];
      assert c !in front && c in rows && forall b :: b in front ==> b in rows;
      ManageAsks(d, front, records, acknowledged, m, policy);
      var e := ManageRows(d, d.ledger.orders, front, records, acknowledged, m, policy);
      if e.error.None? {
        ManageRowAsks(e, c, d.ledger.orders[c], records, acknowledged, m, policy);
        AskedMore(d, e, ManageRow(e, c, d.ledger.orders[c], records, acknowledged, m, policy), front, c);
      }
    }
  }

  lemma {:induction false} CancelBuysAsks(d: Desk, rows: seq<string>, records: seq<Record>, acknowledged: set<string>, now: int)
    requires NoRepeats(rows) && forall c :: c in rows ==> c in d.ledger.orders
    ensures var e := CancelBuyRows(d, d.ledger.orders, rows, records, acknowledged, now);
            Asked(d, e, rows)
            && (forall b :: b in d.ledger.orders && b !in rows ==> e.ledger.orders[b] == d.ledger.orders[b])
  {
    hide CancelBuyRow;
    if rows != [] {
      var front, c := rows[..|rows| - 1], rows[|rows| - 1];
      assert rows == front + [c];
      assert c !in front && c in rows && forall b :: b in front ==> b in rows;
      CancelBuysAsks(d, front, records, acknowledged, now);
      var e := CancelBuyRows(d, d.ledger.orders, front, records, acknowledged, now);
      if e.error.None? {
        CancelBuyRowAsks(e, c, d.ledger.orders[c], records, acknowledged, now);
        AskedMore(d, e, CancelBuyRow(e, c, d.ledger.orders[c], records, acknowledged, now), front, c);
      }
    }
  }

  lemma WorkKeepsMarkers(d: Desk, k: Work)
    requires Listed(d.ledger, k)
    ensures forall c :: c in d.pending ==> c in Worked(d, k).pending
    ensures k.ManageWork? ==> forall c :: c in d.pending ==> c !in Worked(d, k).sent
  {
    var start := Desk(d.ledger, d.pending, [], 0, 0, 0, None);
    match k
    case ReconcileWork(_, _, _) =>
    case CancelBuysWork(rows, records, acknowledged, now) =>
      CancelBuysAsks(start, rows, records, acknowledged, now);
    case ManageWork(rows, records, acknowledged, market, policy) =>
      ManageAsks(start, rows, records, acknowledged, market, policy);
  }

  /** Once a cancel request was acknowledged, no later stale-order pass asks for
      that order again, whatever work comes between and whatever the records say. */
  lemma {:induction false} AcknowledgedCancelIsLast(ds: seq<Desk>, ks: seq<Work>, i: nat, j: nat, c: string)
    requires History(ds, ks) && i <= j < |ks| && c in ds[i].pending
    ensures c in ds[j].pending && (ks[j].ManageWork? ==> c !in ds[j + 1].sent)
    decreases j
  {
    hide Listed, Worked;
    if i < j {
      AcknowledgedCancelIsLast(ds, ks, i, j - 1, c);
      assert Listed(ds[j - 1].ledger, ks[j - 1]) && ds[j - 1 + 1] == Worked(ds[j - 1], ks[j - 1]);
      WorkKeepsMarkers(ds[j - 1], ks[j - 1]);
    }
    assert Listed(ds[j].ledger, ks[j]) && ds[j + 1] == Worked(ds[j], ks[j]);
    WorkKeepsMarkers(ds[j], ks[j]);
  }

  // ------------------------------------------------- pending until terminal

  /** Recorded averages are positive. No column check says so; the arguments the
      transactions refuse do, as `EveryRunAveraged` shows. */
  ghost predicate Averaged(l: Ledger) {
    forall c :: c in l.orders && l.orders[c].average.Some? ==> l.orders[c].average.value > 0.0
  }

  lemma ExecuteAverages(l: Ledger, call: Call)
    requires Averaged(l)
    ensures Averaged(Execute(l, call))
  {
    hide Blend, Blank, StockCode, HasFill, InsertFill;
    match call
    case FillCall(r) =>
      if r.WellFormed() && r.client in l.orders {
        BlendPositive(l.orders[r.client].filled, l.orders[r.client].average.GetOr(0.0), r.quantity, r.price);
      }
    case _ =>
  }

  /** In every ledger any sequence of transactions leads to, whatever their arguments. */
  lemma {:induction false} EveryRunAveraged(decisions: map<string, Decision>, calls: seq<Call>)
    ensures Averaged(ExecuteAll(Ledger(map[], [], [], [], decisions), calls))
  {
    hide Execute, Averaged;
    var empty := Ledger(map[], [], [], [], decisions);
    if calls == [] {
      assert Averaged(empty) by { NoOrdersAveraged(empty); }
    } else {
      EveryRunAveraged(decisions, calls[..|calls| - 1]);
      ExecuteAverages(ExecuteAll(empty, calls[..|calls| - 1]), calls[|calls| - 1]);
    }
  }

  lemma NoOrdersAveraged(l: Ledger)
    requires l.orders == map[]
    ensures Averaged(l)
  {
  }

  predicate Settling(o: Order) {
    o.status == CancelPending || o.status.Terminal()
  }

  lemma BlendPositive(quantity: nat, average: real, more: Count, price: Price)
    requires average >= 0.0
    ensures Blend(quantity, average, more, price) > 0.0
  {
    assert quantity as real * average >= 0.0;
    assert more as real * price > 0.0;
  }

  /** A positive price for the new shares needs a positive cumulative average. */
  lemma PositiveAverage(o: Order, rec: Record)
    requires o.filled < rec.filled && IncrementalPrice(o, rec).Done? && IncrementalPrice(o, rec).value > 0.0
    requires o.average.Some? ==> o.average.value > 0.0
    ensures rec.average.Some? ==> rec.average.value > 0.0
  {
    if rec.average.Some? && o.filled > 0 && o.average.Some? {
      var a, f, b, g := rec.average.value, rec.filled as real, o.average.value, o.filled as real;
      assert b * g > 0.0;
      assert g < f;
      SignOfQuotient(a * f - b * g, f - g);
      SignOfFactor(a, f);
    }
  }

  lemma SignOfQuotient(x: real, d: real)
    requires d > 0.0 && x / d > 0.0
    ensures x > 0.0
  {
    assert x == (x / d) * d;
  }

  lemma SignOfFactor(a: real, f: real)
    requires f > 0.0
    ensures a * f > 0.0 ==> a > 0.0
  {
  }

  /** Recording the new shares, when it gets past its checks. */
  lemma AdoptFillsStep(p: Progress, c: string, local: Order, rec: Record, now: int)
    requires c in p.ledger.orders && local == p.ledger.orders[c] && Averaged(p.ledger) && local.filled <= rec.filled
    ensures var (q, on) := AdoptFills(p, c, local, rec, now);
            && q.ledger.orders.Keys == p.ledger.orders.Keys && Averaged(q.ledger)
            && q.ledger == q.ledger.(orders := q.ledger.orders)
            && q.ledger.orders == p.ledger.orders[c := q.ledger.orders[c]]
            && (!on ==> q.ledger == p.ledger)
            && (on && q.ledger.orders[c] != local ==>
                  && !Blank(c) && !Blank(rec.number) && rec.filled > local.filled
                  && q.ledger.orders[c].filled == rec.filled <= q.ledger.orders[c].requested
                  && (rec.average.Some? ==> rec.average.value > 0.0))
  {
    hide Blank, StockCode, Decimal, HasFill, Blend;
    if rec.filled > local.filled && IncrementalPrice(local, rec).Done? {
      var price := IncrementalPrice(local, rec).value;
      if price > 0.0 {
        PositiveAverage(local, rec);
        BlendPositive(local.filled, local.average.GetOr(0.0), rec.filled - local.filled, price);
      }
    }
  }

  /** Taking fills into positions leaves the orders alone. */
  lemma TakingLeavesOrders(l: Ledger, c: string, o: Order)
    ensures MaterializeLocal(l, c, o).Done? ==> MaterializeLocal(l, c, o).value.0.orders == l.orders
  {
    hide Unapplied, TakeInAll;
  }

  lemma AdoptStatusStep(p: Progress, c: string, local: Order, rec: Record, now: int)
    requires c in p.ledger.orders && Averaged(p.ledger)
    ensures var q := AdoptStatus(p, c, local, rec, now);
            && q.ledger.orders.Keys == p.ledger.orders.Keys && Averaged(q.ledger)
            && q.ledger.orders == p.ledger.orders[c := q.ledger.orders[c]]
            && (q.ledger.orders[c] == p.ledger.orders[c]
                || (local.status == CancelPending ==> Settling(q.ledger.orders[c])))
            && ((LocalStatus(rec.status).Some? && !Blank(c) && !Blank(rec.number) && rec.filled <= p.ledger.orders[c].requested
                 && (rec.average.Some? ==> rec.average.value > 0.0) && local.status == CancelPending) ==> Settling(q.ledger.orders[c]))
  {
    hide Blank, MaterializeLocal;
    var s := LocalStatus(rec.status);
    if s.Some? {
      var r := UpdateStatus(p.ledger, c, NextStatus(local, s.value), Some(rec.number), Some(rec.filled), rec.average, now);
      if r.Done? {
        TakingLeavesOrders(r.value.0, c, local);
      }
    }
  }

  /** A row moves its own order only, and one that is CANCEL_PENDING stays so or finishes. */
  lemma RowSettles(p: Progress, c: string, records: seq<Record>, now: int)
    requires c in p.ledger.orders && Averaged(p.ledger) && Parsed(records)
    ensures var q := ReconcileRow(p, c, p.ledger.orders[c], records, now);
            && q.ledger.orders.Keys == p.ledger.orders.Keys && Averaged(q.ledger)
            && q.ledger.orders == p.ledger.orders[c := q.ledger.orders[c]]
            && (p.ledger.orders[c].status == CancelPending ==> Settling(q.ledger.orders[c]))
  {
    hide AdoptFills, AdoptStatus, Blank, Averaged, FindRecord, SameOrder;
    var local := p.ledger.orders[c];
    var rec := RecordOf(local, records);
    if rec.Some? && Objection(c, local, rec.value).None? {
      var start := if local.status == Unknown then p.Because(LocalUnknown(c)) else p;
      AdoptFillsStep(start, c, local, rec.value, now);
      var (q, on) := AdoptFills(start, c, local, rec.value, now);
      if on {
        AdoptStatusStep(q, c, local, rec.value, now);
      }
    }
  }

  lemma {:induction false} RowsSettle(p: Progress, rows: seq<string>, records: seq<Record>, now: int)
    requires p.error.None? && NoRepeats(rows) && (forall c :: c in rows ==> c in p.ledger.orders) && Averaged(p.ledger) && Parsed(records)
    ensures var q := ReconcileRows(p, p.ledger.orders, rows, records, now);
            && q.ledger.orders.Keys == p.ledger.orders.Keys && Averaged(q.ledger)
            && (forall c :: c in p.ledger.orders && p.ledger.orders[c].status == CancelPending ==> Settling(q.ledger.orders[c]))
            && (forall c :: c in p.ledger.orders && c !in rows ==> q.ledger.orders[c] == p.ledger.orders[c])
  {
    hide ReconcileRow;
    if rows != [] {
      var front, c := rows[..|rows| - 1], rows[|rows| - 1];
      assert rows == front + [c];
      assert c !in front && c in rows && forall b :: b in front ==> b in rows;
      RowsSettle(p, front, records, now);
      var q := ReconcileRows(p, p.ledger.orders, front, records, now);
      if q.error.None? {
        RowSettles(q, c, records, now);
      }
    }
  }

  lemma CopyAverages(l: Ledger, c: string, s: Status, rec: Record, now: int)
    requires c in l.orders && Averaged(l)
    ensures CopyStatus(l, c, s, rec, now).Done? ==>
              var m := CopyStatus(l, c, s, rec, now).value.0;
              m.orders.Keys == l.orders.Keys && Averaged(m) && (m.orders[c].status == s || m == l)
  {
    hide Blank;
  }

  lemma SetAsideAverages(d: Desk, c: string, now: int)
    requires c in d.ledger.orders && Averaged(d.ledger)
    ensures var e := SetAside(d, c, now); e.ledger.orders.Keys == d.ledger.orders.Keys && Averaged(e.ledger)
  {
    hide Blank;
  }

  lemma RequestAverages(d: Desk, c: string, rec: Record, acknowledged: bool, now: int)
    requires c in d.ledger.orders && Averaged(d.ledger)
    ensures var e := RequestCancel(d, c, rec, acknowledged, now); e.ledger.orders.Keys == d.ledger.orders.Keys && Averaged(e.ledger)
  {
    hide SetAside, CopyStatus, Averaged;
    CopyAverages(d.ledger, c, CancelPending, rec, now);
    SetAsideAverages(d, c, now);
    var r := CopyStatus(d.ledger, c, CancelPending, rec, now);
    if r.Done? {
      SetAsideAverages(d.(ledger := r.value.0, sent := d.sent + [c]), c, now);
    }
  }

  lemma ManageRowSettles(d: Desk, c: string, records: seq<Record>, acknowledged: set<string>, m: Market, policy: Policy)
    requires c in d.ledger.orders && Averaged(d.ledger)
    ensures var e := ManageRow(d, c, d.ledger.orders[c], records, acknowledged, m, policy);
            && e.ledger.orders.Keys == d.ledger.orders.Keys && Averaged(e.ledger)
            && (d.ledger.orders[c].status == CancelPending ==> Settling(e.ledger.orders[c]))
  {
    hide FindRecord, Blank, SetAside, CopyStatus, RequestCancel, Averaged, Stale, SameOrder;
    var rec := RecordOf(d.ledger.orders[c], records);
    SetAsideAverages(d, c, m.now);
    if rec.Some? {
      RequestAverages(d, c, rec.value, rec.value.number in acknowledged, m.now);
      var s := LocalStatus(rec.value.status);
      CopyAverages(d.ledger, c, if s.Some? && s.value.Terminal() then s.value else CancelPending, rec.value, m.now);
    }
  }

  lemma {:induction false} ManageSettles(d: Desk, rows: seq<string>, records: seq<Record>, acknowledged: set<string>, m: Market, policy: Policy)
    requires NoRepeats(rows) && (forall c :: c in rows ==> c in d.ledger.orders) && Averaged(d.ledger)
    ensures var e := ManageRows(d, d.ledger.orders, rows, records, acknowledged, m, policy);
            && e.ledger.orders.Keys == d.ledger.orders.Keys && Averaged(e.ledger)
            && (forall c :: c in d.ledger.orders && d.ledger.orders[c].status == CancelPending ==> Settling(e.ledger.orders[c]))
  {
    hide ManageRow;
    if rows != [] {
      var front, c := rows[..|rows| - 1], rows[|rows| - 1];
      assert rows == front + [c];
      assert c !in front && c in rows && forall b :: b in front ==> b in rows;
      ManageSettles(d, front, records, acknowledged, m, policy);
      ManageAsks(d, front, records, acknowledged, m, policy);
      var e := ManageRows(d, d.ledger.orders, front, records, acknowledged, m, policy);
      if e.error.None? {
        ManageRowSettles(e, c, records, acknowledged, m, policy);
        ManageRowAsks(e, c, d.ledger.orders[c], records, acknowledged, m, policy);
      }
    }
  }

  lemma CancelBuyRowAverages(d: Desk, c: string, records: seq<Record>, acknowledged: set<string>, now: int)
    requires c in d.ledger.orders && Averaged(d.ledger)
    ensures Averaged(CancelBuyRow(d, c, d.ledger.orders[c], records, acknowledged, now).ledger)
  {
    hide FindRecord, Blank, SetAside, CopyStatus, RequestCancel, Averaged;
    var rec := RecordOf(d.ledger.orders[c], records);
    SetAsideAverages(d, c, now);
    if rec.Some? {
      RequestAverages(d, c, rec.value, rec.value.number in acknowledged, now);
    }
  }

  lemma {:induction false} CancelBuysAverage(d: Desk, rows: seq<string>, records: seq<Record>, acknowledged: set<string>, now: int)
    requires NoRepeats(rows) && (forall c :: c in rows ==> c in d.ledger.orders) && Averaged(d.ledger)
    ensures Averaged(CancelBuyRows(d, d.ledger.orders, rows, records, acknowledged, now).ledger)
  {
    hide CancelBuyRow;
    if rows != [] {
      var front, c := rows[..|rows| - 1], rows[|rows| - 1];
      assert rows == front + [c];
      assert c !in front && c in rows && forall b :: b in front ==> b in rows;
      CancelBuysAverage(d, front, records, acknowledged, now);
      CancelBuysAsks(d, front, records, acknowledged, now);
      var e := CancelBuyRows(d, d.ledger.orders, front, records, acknowledged, now);
      if e.error.None? {
        CancelBuyRowAverages(e, c, records, acknowledged, now);
      }
    }
  }

  /** An order in CANCEL_PENDING comes out of any work in CANCEL_PENDING or
      finished, and nobody asks for it again. */
  lemma WorkSettles(d: Desk, k: Work)
    requires Listed(d.ledger, k) && Averaged(d.ledger)
    ensures var e := Worked(d, k);
            && e.ledger.orders.Keys == d.ledger.orders.Keys && Averaged(e.ledger)
            && (forall c :: c in d.ledger.orders && d.ledger.orders[c].status == CancelPending ==>
                  Settling(e.ledger.orders[c]) && c !in e.sent)
  {
    hide Averaged, CancelBuyRows, ManageRows, ReconcileRows, NoRepeats;
    var start := Desk(d.ledger, d.pending, [], 0, 0, 0, None);
    match k
    case ReconcileWork(rows, records, now) =>
      RowsSettle(Progress(d.ledger, NOTHING_YET, None), rows, records, now);
    case CancelBuysWork(rows, records, acknowledged, now) =>
      CancelBuysAsks(start, rows, records, acknowledged, now);
      CancelBuysAverage(start, rows, records, acknowledged, now);
      assert forall c :: c in d.ledger.orders && d.ledger.orders[c].status == CancelPending ==> c !in rows;
    case ManageWork(rows, records, acknowledged, market, policy) =>
      ManageAsks(start, rows, records, acknowledged, market, policy);
      ManageSettles(start, rows, records, acknowledged, market, policy);
  }

  /** From the moment an order is CANCEL_PENDING until it is finished, it stays
      CANCEL_PENDING through any work, and neither the stale-order passes nor the
      operator's cancel-all ask for it again. */
  lemma {:induction false} PendingUntilFinished(ds: seq<Desk>, ks: seq<Work>, i: nat, j: nat, c: string)
    requires History(ds, ks) && Averaged(ds[0].ledger) && i <= j < |ks|
    requires c in ds[i].ledger.orders && ds[i].ledger.orders[c].status == CancelPending
    requires forall k :: i <= k <= j && c in ds[k].ledger.orders ==> !ds[k].ledger.orders[c].status.Terminal()
    ensures c in ds[j].ledger.orders && ds[j].ledger.orders[c].status == CancelPending
    ensures c in ds[j + 1].ledger.orders && Settling(ds[j + 1].ledger.orders[c]) && c !in ds[j + 1].sent
    decreases j
  {
    hide Listed, Worked, Averaged;
    HistoryAveraged(ds, ks, j);
    if i < j {
      PendingUntilFinished(ds, ks, i, j - 1, c);
      assert Settling(ds[j - 1 + 1].ledger.orders[c]);
    }
    assert Listed(ds[j].ledger, ks[j]) && ds[j + 1] == Worked(ds[j], ks[j]);
    WorkSettles(ds[j], ks[j]);
  }

  lemma {:induction false} HistoryAveraged(ds: seq<Desk>, ks: seq<Work>, i: nat)
    requires History(ds, ks) && Averaged(ds[0].ledger) && i < |ds|
    ensures Averaged(ds[i].ledger)
  {
    hide Listed, Worked, Averaged;
    if i > 0 {
      HistoryAveraged(ds, ks, i - 1);
      assert Listed(ds[i - 1].ledger, ks[i - 1]) && ds[i - 1 + 1] == Worked(ds[i - 1], ks[i - 1]);
      WorkSettles(ds[i - 1], ks[i - 1]);
    }
  }

  // ------------------------------------------------------ unanswered requests

  /** A request leaves a marker exactly when it was acknowledged; otherwise the
      order is UNKNOWN and nothing remembers that it was asked for. Only a record
      of more fills than were ordered keeps CANCEL_PENDING from being written. */
  lemma MarkedIffAcknowledged(d: Desk, c: string, records: seq<Record>, acknowledged: set<string>, m: Market, policy: Policy)
    requires c in d.ledger.orders && !Blank(c)
    requires ManageRow(d, c, d.ledger.orders[c], records, acknowledged, m, policy).sent != d.sent
    ensures var e := ManageRow(d, c, d.ledger.orders[c], records, acknowledged, m, policy);
            && e.sent == d.sent + [c] && c !in d.pending
            && RecordOf(d.ledger.orders[c], records).Some?
            && (c in e.pending <==> d.ledger.orders[c].brokerId.value in acknowledged)
            && (c !in e.pending ==> e.ledger.orders[c].status == Unknown)
            && (c in e.pending && e.ledger.orders[c].status != CancelPending ==>
                  e.ledger == d.ledger && RecordOf(d.ledger.orders[c], records).value.filled > d.ledger.orders[c].requested)
  {
    hide FindRecord;
    assert "order_management"[0] == 'o';
  }

  function RetryOrder(status: Status): Order {
    Order(None, "005930", Buy, 1, 1.0, status, Some("1"), 0, None, 0, 0, Some(0), None, None)
  }

  /** The passes do retry a request the broker never answered: it leaves the
      order UNKNOWN, the next reconcile makes it ACKNOWLEDGED again, and the next
      stale-order pass asks again. */
  lemma UnansweredCancelIsRetried() returns (ds: seq<Desk>, ks: seq<Work>)
    ensures History(ds, ks) && |ks| == 3 && ks[0].ManageWork? && ks[1].ReconcileWork? && ks[2].ManageWork?
    ensures ds[1].sent == ["a"] && ds[3].sent == ["a"]
  {
    var rec := Record("1", "005930", Some(Buy), 1, 0, 1, None, None, Unfilled, Some("b"));
    var records := [rec];
    assert "a"[0] == 'a' && "1"[0] == '1' && "b"[0] == 'b' && "order_management"[0] == 'o';
    assert FindRecord(records, "1") == Some(rec);
    var market, policy := Market(0, true, true), Policy(0, 0);
    var k, r := ManageWork(["a"], records, {}, market, policy), ReconcileWork(["a"], records, 0);
    var d0 := Desk(Ledger(map["a" := RetryOrder(Acknowledged)], [], [], [], map[]), map[], [], 0, 0, 0, None);
    RetryOnce(d0, records, market, policy);
    var d1 := Worked(d0, k);
    RetryReconciled(d1, records);
    var d2 := Worked(d1, r);
    RetryOnce(d2, records, market, policy);
    ds, ks := [d0, d1, d2, Worked(d2, k)], [k, r, k];
  }

  lemma RetryOnce(d: Desk, records: seq<Record>, market: Market, policy: Policy)
    requires records == [Record("1", "005930", Some(Buy), 1, 0, 1, None, None, Unfilled, Some("b"))]
    requires market == Market(0, true, true) && policy == Policy(0, 0)
    requires d.ledger.orders.Keys == {"a"} && d.ledger.orders["a"].(error := None) == RetryOrder(Acknowledged) && d.pending == map[]
    ensures var k := ManageWork(["a"], records, {}, market, policy);
            && Listed(d.ledger, k) && Worked(d, k).sent == ["a"] && Worked(d, k).pending == map[]
            && Worked(d, k).ledger.orders.Keys == {"a"} && Worked(d, k).ledger.orders["a"] == RetryOrder(Unknown).(error := Some("order_management"))
            && Worked(d, k).ledger.fills == d.ledger.fills && Worked(d, k).ledger.applied == d.ledger.applied
  {
    hide ManageRow, FindRecord;
    var start := Desk(d.ledger, d.pending, [], 0, 0, 0, None);
    assert ["a"][..0] == [];
    assert ManageRows(start, d.ledger.orders, [], records, {}, market, policy) == start;
    assert ManageRows(start, d.ledger.orders, ["a"], records, {}, market, policy)
        == ManageRow(start, "a", d.ledger.orders["a"], records, {}, market, policy);
    RetryRow(start, records, market, policy);
  }

  lemma RetryRow(d: Desk, records: seq<Record>, market: Market, policy: Policy)
    requires records == [Record("1", "005930", Some(Buy), 1, 0, 1, None, None, Unfilled, Some("b"))]
    requires market == Market(0, true, true) && policy == Policy(0, 0)
    requires d.ledger.orders.Keys == {"a"} && d.ledger.orders["a"].(error := None) == RetryOrder(Acknowledged) && d.pending == map[]
    requires d.sent == [] && d.error == None
    ensures var e := ManageRow(d, "a", d.ledger.orders["a"], records, {}, market, policy);
            && e.sent == ["a"] && e.pending == map[]
            && e.ledger == d.ledger.(orders := map["a" := RetryOrder(Unknown).(error := Some("order_management"))])
  {
    assert "a"[0] == 'a' && "1"[0] == '1' && "b"[0] == 'b' && "order_management"[0] == 'o';
    assert FindRecord(records, "1") == Some(records[0]);
    assert [] + ["a"] == ["a"];
  }

  lemma RetryReconciled(d: Desk, records: seq<Record>)
    requires records == [Record("1", "005930", Some(Buy), 1, 0, 1, None, None, Unfilled, Some("b"))]
    requires d.ledger.orders.Keys == {"a"} && d.ledger.orders["a"].(error := None) == RetryOrder(Unknown) && d.pending == map[]
    ensures var k := ReconcileWork(["a"], records, 0);
            && Listed(d.ledger, k) && Worked(d, k).pending == map[]
            && Worked(d, k).ledger.orders.Keys == {"a"} && Worked(d, k).ledger.orders["a"] == RetryOrder(Acknowledged)
  {
    hide MaterializeLocal;
    var p := Progress(d.ledger, NOTHING_YET, None);
    assert "a"[0] == 'a' && "1"[0] == '1';
    assert FindRecord(records, "1") == Some(records[0]);
    assert ["a"][..0] == [];
    assert ReconcileRows(p, d.ledger.orders, [], records, 0) == p;
    assert ReconcileRows(p, d.ledger.orders, ["a"], records, 0) == ReconcileRow(p, "a", d.ledger.orders["a"], records, 0);
    var l := UpdateStatus(d.ledger, "a", Acknowledged, Some("1"), Some(0), None, 0);
    TakingLeavesOrders(l.value.0, "a", d.ledger.orders["a"]);
  }
}
