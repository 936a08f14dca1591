/** `pipeline/fill_notice_reconciliation.py`: realtime notices, the other channel
    by which fills reach the ledger. A notice can only update one known order. */
module FillNotices {
  import opened Wrappers
  import opened Text
  import opened LedgerTables
  import opened LedgerInvariant
  import opened LedgerRuns
  import opened Database

  datatype Kind = Accepted | Refused | Filling

  /** `side` is absent for a code that is neither buy nor sell, `number` for an
      identifier with control characters or too long, `time` (seconds of the day)
      for malformed text; `rest` stands for the fields only the digest uses. */
  datatype Notice = Notice(
    kind: Kind, number: Option<string>, symbol: string, side: Option<Side>, ordered: int,
    quantity: int, price: int, time: Option<nat>, rest: string)

  /** When a notice comes in, in local seconds, and the trading day the caller names. */
  datatype Arrival = Arrival(received: int, day: Option<int>)

  const DAY := 86400

  datatype Reply =
    | Applied(taken: nat) | Duplicate(taken: nat) | Acknowledges | Rejects | Ignores | Blocks

  /** The instant of the fill, unless it is malformed or lies in the future. */
  function FilledAt(n: Notice, a: Arrival): Option<int> {
    var today := a.received / DAY;
    var day := a.day.GetOr(today);
    if day > today || n.time.None? then None
    else if day * DAY + n.time.value > a.received then None
    else Some(day * DAY + n.time.value)
  }

  ghost predicate Only(orders: map<string, Order>, number: string, c: string) {
    && c in orders && orders[c].brokerId == Some(number)
    && forall d :: d in orders && orders[d].brokerId == Some(number) ==> d == c
  }

  predicate Fits(o: Order, n: Notice) {
    && o.symbol == n.symbol && n.side == Some(o.side) && o.requested == n.ordered
    && n.quantity >= 0 && (n.kind.Filling? || n.quantity == 0)
  }

  /** A complete and ordered entry plan. */
  function EntryRisk(l: Ledger, o: Order): Option<Plan> {
    if o.side == Sell then Some(Plan(None, None, None, "broker_fill"))
    else if o.signal.None? || o.signal.value == "" || o.signal.value !in l.decisions then None
    else
      var d := l.decisions[o.signal.value];
      if d.stop.Some? && d.take.Some? && d.holding.Some? && 0.0 < d.stop.value < d.take.value && d.holding.value > 0
      then Some(Plan(d.stop, d.take, d.holding, "broker_fill")) else None
  }

  function Request(n: Notice, c: string, id: string, filledAt: int, received: int): FillRequest {
    FillRequest(id, c, n.quantity, n.price as real, filledAt, n.number, Some(n.symbol), n.side, received)
  }

  function Take(l: Ledger, c: string, o: Order): Outcome<(Ledger, nat)> {
    var risk := EntryRisk(l, o);
    if risk.None? then Raised(MissingEntryRisk) else Materialize(l, c, risk.value)
  }

  function HandleAccepted(l: Ledger, c: string, o: Order, now: int): (Ledger, Reply) {
    if o.filled < Total(l.fills, SharesOf(c)) then (l, Blocks)
    else if o.status == CancelPending then (l, Ignores)
    else if (o.status == PartiallyFilled || o.status == Filled) && o.filled > 0 then (l, Ignores)
    else if o.status == Unknown || o.status.Terminal() then (l, Blocks)
    else if o.filled != 0 then (l, Blocks)
    else if o.status == Acknowledged then (l, Acknowledges)
    else
      match UpdateStatus(l, c, Acknowledged, None, None, None, now)
      case Raised(_) => (l, Blocks)
      case Done((m, _)) => (m, Acknowledges)
  }

  function HandleRefused(l: Ledger, c: string, o: Order, now: int): (Ledger, Reply) {
    if o.filled != 0 || Total(l.fills, SharesOf(c)) != 0 then (l, Blocks)
    else if o.status == Rejected then (l, Rejects)
    else if o.status.Terminal() || o.status == Unknown then (l, Blocks)
    else
      match UpdateStatus(l, c, Rejected, None, None, None, now)
      case Raised(_) => (l, Blocks)
      case Done((m, _)) => (m, Rejects)
  }

  /** A fill seen before is only ever taken in; a new one is recorded, then taken
      in, and stays recorded when it cannot be. */
  function HandleFilling(l: Ledger, c: string, o: Order, n: Notice, id: string, filledAt: int, now: int): (Ledger, Reply) {
    if HasFill(l.fills, id) then
      if HasFill(l.applied, id) then (l, Duplicate(0))
      else
        match Take(l, c, o)
        case Raised(_) => (l, Blocks)
        case Done((m, k)) => (m, Duplicate(k))
    else if n.quantity <= 0 || n.price <= 0 then (l, Blocks)
    else if o.filled + n.quantity > o.requested || o.status == Cancelled || o.status == Rejected then (l, Blocks)
    else if EntryRisk(l, o).None? then (l, Blocks)
    else
      match ApplyFill(l, Request(n, c, id, filledAt, now))
      case Raised(_) => (l, Blocks)
      case Done((m, inserted)) =>
        if !inserted then (m, Duplicate(0))
        else
          match Take(m, c, o)
          case Raised(_) => (m, Blocks)
          case Done((k, taken)) => (k, Applied(taken))
  }

  /** What a notice whose instant and identity check out does to its order. */
  function HandleKnown(l: Ledger, c: string, n: Notice, id: string, filledAt: int, now: int): (Ledger, Reply)
    requires c in l.orders
  {
    var o := l.orders[c];
    if !Fits(o, n) then (l, Blocks)
    else
      match n.kind
      case Accepted => HandleAccepted(l, c, o, now)
      case Refused => HandleRefused(l, c, o, now)
      case Filling => HandleFilling(l, c, o, n, id, filledAt, now)
  }

  ghost function Handle(l: Ledger, n: Notice, a: Arrival, digest: Notice -> string): (Ledger, Reply) {
    var at := FilledAt(n, a);
    if at.None? || n.side.None? || n.number.None? then (l, Blocks)
    else if c :| Only(l.orders, n.number.value, c) then HandleKnown(l, c, n, "kis:fill:" + digest(n), at.value, a.received)
    else (l, Blocks)
  }

  // ------------------------------------------------------------- the method

  lemma OnlyOne(orders: map<string, Order>, number: string, rows: set<string>)
    requires rows == set c | c in orders && orders[c].brokerId == Some(number)
    ensures |rows| == 1 <==> exists c :: Only(orders, number, c)
    ensures |rows| == 1 ==> forall c :: c in rows ==> Only(orders, number, c)
  {
    if |rows| == 1 {
      var c :| c in rows;
      assert |rows - {c}| == 0;
      assert rows == {c};
      forall d | d in orders && orders[d].brokerId == Some(number)
        ensures d == c
      {
        assert d in rows;
      }
      assert Only(orders, number, c);
    }
    if c :| Only(orders, number, c) {
      assert rows == {c};
    }
  }

  /** Reads the sum of an order's recorded fills. */
  method SharesFilled(db: Database, c: string) returns (sum: int)
    ensures sum == Total(db.fills, SharesOf(c))
  {
    sum := 0;
    var i := |db.fills|;
    while i > 0
      invariant 0 <= i <= |db.fills|
      invariant sum == Total(db.fills[i..], SharesOf(c))
    {
      i := i - 1;
      assert db.fills[i..][1..] == db.fills[i + 1..] && db.fills[i..][0] == db.fills[i];
      if db.fills[i].client == c {
        sum := sum + db.fills[i].quantity;
      }
    }
    assert db.fills[0..] == db.fills;
  }

  method TakeIntoPosition(db: Database, c: string, o: Order) returns (r: Outcome<nat>)
    modifies db`positions, db`applied
    ensures Transacted(old(db.State()), db.State(), Take(old(db.State()), c, o), r)
  {
    var risk := EntryRisk(db.State(), o);
    if risk.None? {
      return Raised(MissingEntryRisk);
    }
    r := db.MaterializeOrderFills(c, risk.value);
  }

  method ApplyAccepted(db: Database, c: string, o: Order, now: int) returns (r: Reply)
    modifies db`orders
    ensures (db.State(), r) == HandleAccepted(old(db.State()), c, o, now)
  {
    var recorded := SharesFilled(db, c);
    if o.filled < recorded {
      return Blocks;
    }
    if o.status == CancelPending || ((o.status == PartiallyFilled || o.status == Filled) && o.filled > 0) {
      return Ignores;
    }
    if o.status == Unknown || o.status.Terminal() || o.filled != 0 {
      return Blocks;
    }
    if o.status != Acknowledged {
      var u := db.UpdateBrokerOrderStatus(c, Acknowledged, None, None, None, now);
      if u.Raised? {
        return Blocks;
      }
    }
    return Acknowledges;
  }

  method ApplyRejected(db: Database, c: string, o: Order, now: int) returns (r: Reply)
    modifies db`orders
    ensures (db.State(), r) == HandleRefused(old(db.State()), c, o, now)
  {
    var recorded := SharesFilled(db, c);
    if o.filled != 0 || recorded != 0 {
      return Blocks;
    }
    if o.status == Rejected {
      return Rejects;
    }
    if o.status.Terminal() || o.status == Unknown {
      return Blocks;
    }
    var u := db.UpdateBrokerOrderStatus(c, Rejected, None, None, None, now);
    return if u.Raised? then Blocks else Rejects;
  }

  method ApplyFilled(db: Database, c: string, o: Order, n: Notice, id: string, filledAt: int, now: int) returns (r: Reply)
    modifies db`orders, db`fills, db`positions, db`applied
    ensures (db.State(), r) == HandleFilling(old(db.State()), c, o, n, id, filledAt, now)
  {
    if HasFill(db.fills, id) {
      if HasFill(db.applied, id) {
        return Duplicate(0);
      }
      var again := TakeIntoPosition(db, c, o);
      return if again.Raised? then Blocks else Duplicate(again.value);
    }
    if n.quantity <= 0 || n.price <= 0 || o.filled + n.quantity > o.requested || o.status == Cancelled || o.status == Rejected {
      return Blocks;
    }
    if EntryRisk(db.State(), o).None? {
      return Blocks;
    }
    var inserted := db.ApplyBrokerFill(Request(n, c, id, filledAt, now));
    if inserted.Raised? {
      return Blocks;
    }
    if !inserted.value {
      return Duplicate(0);
    }
    var taken := TakeIntoPosition(db, c, o);
    return if taken.Raised? then Blocks else Applied(taken.value);
  }

  /** A notice is applied to the one order with its broker number, or blocks new
      entries for operator review. */
  method ApplyFillNotice(db: Database, n: Notice, a: Arrival, digest: Notice -> string) returns (r: Reply)
    modifies db`orders, db`fills, db`positions, db`applied, db`review, db`blockEntries
    ensures (db.State(), r) == Handle(old(db.State()), n, a, digest)
    ensures if r.Blocks? then db.review && db.blockEntries else db.review == old(db.review) && db.blockEntries == old(db.blockEntries)
  {
    r := Blocks;
    var at := FilledAt(n, a);
    if at.Some? && n.side.Some? && n.number.Some? {
      var rows := set c | c in db.orders && db.orders[c].brokerId == n.number;
      OnlyOne(db.orders, n.number.value, rows);
      if |rows| == 1 {
        var c :| c in rows;
        assert Only(db.orders, n.number.value, c);
        var o := db.orders[c];
        if Fits(o, n) {
          match n.kind
          case Accepted => r := ApplyAccepted(db, c, o, a.received);
          case Refused => r := ApplyRejected(db, c, o, a.received);
          case Filling => r := ApplyFilled(db, c, o, n, "kis:fill:" + digest(n), at.value, a.received);
        }
      }
    }
    if r.Blocks? {
      db.review, db.blockEntries := true, true;
    }
  }

  // ---------------------------------------------------- what a notice can do

  /** How one notice may move an order: acknowledge it, reject it, or add shares. */
  ghost predicate Moved(o: Order, p: Order) {
    && p.signal == o.signal && p.symbol == o.symbol && p.side == o.side && p.requested == o.requested && p.brokerId == o.brokerId
    && (|| (p.status == o.status && p.filled == o.filled)
        || (Unset(o.status) && o.filled == 0 == p.filled && p.status == Acknowledged)
        || (!o.status.Terminal() && o.status != Unknown && o.filled == 0 == p.filled && p.status == Rejected)
        || (o.status != Cancelled && o.status != Rejected && o.filled < p.filled && (p.status == Filled || p.status == PartiallyFilled)))
  }

  predicate Unset(s: Status) {
    s == Intent || s == Submitting || s == PartiallyFilled
  }

  ghost predicate Grown(l: Ledger, m: Ledger) {
    && m.decisions == l.decisions && m.orders.Keys == l.orders.Keys
    && (forall c :: c in l.orders ==> Moved(l.orders[c], m.orders[c]))
    && (forall id :: HasFill(l.fills, id) ==> HasFill(m.fills, id))
    && (forall id :: HasFill(l.applied, id) ==> HasFill(m.applied, id))
  }

  lemma TakeGrows(l: Ledger, c: string, o: Order)
    requires LedgerOk(l) && Take(l, c, o).Done?
    ensures var m := Take(l, c, o).value.0;
            && LedgerOk(m) && m.orders == l.orders && m.fills == l.fills && m.decisions == l.decisions
            && forall id :: HasFill(l.applied, id) ==> HasFill(m.applied, id)
  {
    MaterializeKeeps(l, c, EntryRisk(l, o).value);
    var fs := Unapplied(l.fills, l.applied, c);
    forall id | HasFill(l.applied, id)
      ensures HasFill(l.applied + fs, id)
    {
      var i :| 0 <= i < |l.applied| && l.applied[i].id == id;
      assert (l.applied + fs)[i].id == id;
    }
  }

  lemma InsertKeepsFills(fs: seq<Fill>, f: Fill, id: string)
    requires HasFill(fs, id) || f.id == id
    ensures HasFill(InsertFill(fs, f), id)
  {
    InsertFillRows(fs, f);
    if f.id == id {
      assert f in InsertFill(fs, f);
    } else {
      var i :| 0 <= i < |fs| && fs[i].id == id;
      assert fs[i] in InsertFill(fs, f);
    }
  }

  lemma FillRepeats(l: Ledger, r: FillRequest)
    requires ApplyFill(l, r).Done?
    ensures !ApplyFill(l, r).value.1 ==> ApplyFill(l, r).value.0 == l && HasFill(l.fills, r.id)
  {
  }

  lemma RolledUpMoves(o: Order, quantity: Count, price: Price, brokerId: Option<string>, at: int)
    requires o.status != Cancelled && o.status != Rejected && o.brokerId.Some?
    ensures Moved(o, RolledUp(o, quantity, price, brokerId, at))
  {
    hide Blend;
  }

  lemma RecordGrows(l: Ledger, c: string, n: Notice, id: string, filledAt: int, now: int)
    requires LedgerOk(l) && c in l.orders && n.number.Some? && l.orders[c].brokerId == n.number && Fits(l.orders[c], n)
    requires l.orders[c].status != Cancelled && l.orders[c].status != Rejected
    requires ApplyFill(l, Request(n, c, id, filledAt, now)).Done?
    ensures var m := ApplyFill(l, Request(n, c, id, filledAt, now)).value.0;
            LedgerOk(m) && Grown(l, m) && HasFill(m.fills, id) && m.applied == l.applied
  {
    hide LedgerOk, ApplyFill;
    var r := Request(n, c, id, filledAt, now);
    FillKeeps(l, r);
    FillRepeats(l, r);
    if ApplyFill(l, r).value.1 {
      ApplyFillRecords(l, r);
      var m := ApplyFill(l, r).value.0;
      RolledUpMoves(l.orders[c], r.quantity, r.price, RowOf(l, r).brokerId, r.filledAt);
      forall other | HasFill(l.fills, other) || other == id
        ensures HasFill(m.fills, other)
      {
        InsertKeepsFills(l.fills, RowOf(l, r), other);
      }
    }
  }

  lemma KnownGrows(l: Ledger, c: string, n: Notice, id: string, filledAt: int, now: int)
    requires LedgerOk(l) && c in l.orders && n.number.Some? && l.orders[c].brokerId == n.number
    ensures var m := HandleKnown(l, c, n, id, filledAt, now).0; LedgerOk(m) && Grown(l, m)
  {
    hide LedgerOk, ApplyFill, Materialize;
    var m := HandleKnown(l, c, n, id, filledAt, now).0;
    var o := l.orders[c];
    if n.kind.Filling? && Fits(o, n) {
      if HasFill(l.fills, id) {
        if Take(l, c, o).Done? {
          TakeGrows(l, c, o);
        }
      } else if o.status != Cancelled && o.status != Rejected && ApplyFill(l, Request(n, c, id, filledAt, now)).Done? {
        RecordGrows(l, c, n, id, filledAt, now);
        var k := ApplyFill(l, Request(n, c, id, filledAt, now)).value.0;
        if Take(k, c, o).Done? {
          TakeGrows(k, c, o);
        }
      }
    } else if m != l {
      StatusWriteKeeps(l, c, m.orders[c]);
    }
  }

  /** No notice adds or loses an order, changes whose it is, forgets a fill, or
      fills an order beyond what was requested. */
  lemma NoticeGrows(l: Ledger, n: Notice, a: Arrival, digest: Notice -> string)
    requires LedgerOk(l)
    ensures var m := Handle(l, n, a, digest).0;
            LedgerOk(m) && Grown(l, m) && forall c :: c in m.orders ==> m.orders[c].filled <= m.orders[c].requested
  {
    hide LedgerOk, HandleKnown, Grown;
    var m := Handle(l, n, a, digest).0;
    NothingGrows(l);
    if m != l {
      var c :| Only(l.orders, n.number.value, c) && m == HandleKnown(l, c, n, "kis:fill:" + digest(n), FilledAt(n, a).value, a.received).0;
      KnownGrows(l, c, n, "kis:fill:" + digest(n), FilledAt(n, a).value, a.received);
    }
    WithinRequested(m);
  }

  lemma NothingGrows(l: Ledger)
    ensures Grown(l, l)
  {
  }

  lemma WithinRequested(m: Ledger)
    requires LedgerOk(m)
    ensures forall c :: c in m.orders ==> m.orders[c].filled <= m.orders[c].requested
  {
    forall c | c in m.orders
      ensures m.orders[c].filled <= m.orders[c].requested
    {
      AverageIsMean(m, c);
    }
  }

  // ------------------------------------------------------- seen once before

  /** Nothing is left for the notice to write but, at most, taking its recorded
      fill into a position. */
  ghost predicate Spent(l: Ledger, n: Notice, c: string, id: string)
    requires c in l.orders
  {
    var o := l.orders[c];
    || !Fits(o, n)
    || (match n.kind
        case Accepted => o.filled != 0 || !Unset(o.status) || Blank(c)
        case Refused => o.filled != 0 || o.status.Terminal() || o.status == Unknown || Blank(c)
        case Filling =>
          || HasFill(l.fills, id)
          || n.quantity <= 0 || n.price <= 0 || o.filled + n.quantity > o.requested
          || o.status == Cancelled || o.status == Rejected
          || EntryRisk(l, o).None? || Blank(c) || Blank(o.brokerId.GetOr("")) || !StockCode(n.symbol))
  }

  lemma SpentStays(l: Ledger, m: Ledger, n: Notice, c: string, id: string)
    requires c in l.orders && Grown(l, m) && Spent(l, n, c, id)
    ensures Spent(m, n, c, id)
  {
    hide Blank, StockCode;
    assert Moved(l.orders[c], m.orders[c]);
  }

  lemma SumIsFilled(l: Ledger, c: string)
    requires LedgerOk(l) && c in l.orders
    ensures Total(l.fills, SharesOf(c)) == l.orders[c].filled
  {
    assert Agrees(l.orders[c], Total(l.fills, SharesOf(c)), Worth(l.fills, MoneyOf(c)));
  }

  /** A fill that nothing stands against is recorded. */
  lemma NewFillRecorded(l: Ledger, c: string, n: Notice, id: string, filledAt: int, now: int)
    requires LedgerOk(l) && c in l.orders && n.number.Some? && l.orders[c].brokerId == n.number && !Blank(id)
    requires Fits(l.orders[c], n) && n.kind.Filling? && !Spent(l, n, c, id)
    ensures HasFill(HandleKnown(l, c, n, id, filledAt, now).0.fills, id)
  {
    hide LedgerOk, Materialize, Blank, StockCode;
    var o, r := l.orders[c], Request(n, c, id, filledAt, now);
    assert ApplyFill(l, r).Done?;
    RecordGrows(l, c, n, id, filledAt, now);
    var k := ApplyFill(l, r).value.0;
    if Take(k, c, o).Done? {
      TakeGrows(k, c, o);
    }
  }

  /** A status notice that nothing stands against leaves nothing to write. */
  lemma StatusWritten(l: Ledger, c: string, n: Notice, id: string, filledAt: int, now: int)
    requires LedgerOk(l) && c in l.orders && !n.kind.Filling? && Fits(l.orders[c], n) && !Spent(l, n, c, id)
    ensures var m := HandleKnown(l, c, n, id, filledAt, now).0; c in m.orders && Spent(m, n, c, id)
  {
    hide LedgerOk, Materialize, Blank, StockCode;
    SumIsFilled(l, c);
  }

  lemma HandledIsSpent(l: Ledger, c: string, n: Notice, id: string, filledAt: int, now: int)
    requires LedgerOk(l) && c in l.orders && n.number.Some? && l.orders[c].brokerId == n.number && !Blank(id)
    ensures var m := HandleKnown(l, c, n, id, filledAt, now).0; c in m.orders && Spent(m, n, c, id)
  {
    hide LedgerOk, HandleKnown, Blank, StockCode, Fits;
    KnownGrows(l, c, n, id, filledAt, now);
    if Spent(l, n, c, id) {
      SpentStays(l, HandleKnown(l, c, n, id, filledAt, now).0, n, c, id);
    } else if n.kind.Filling? {
      NewFillRecorded(l, c, n, id, filledAt, now);
    } else {
      StatusWritten(l, c, n, id, filledAt, now);
    }
  }

  lemma SpentChangesNothing(l: Ledger, c: string, n: Notice, id: string, filledAt: int, now: int)
    requires LedgerOk(l) && c in l.orders && n.number.Some? && l.orders[c].brokerId == n.number && Spent(l, n, c, id)
    ensures var m := HandleKnown(l, c, n, id, filledAt, now).0;
            m == l || (n.kind.Filling? && HasFill(l.fills, id) && !HasFill(l.applied, id) && m == After(l, Take(l, c, l.orders[c])))
  {
    hide Blank, StockCode, Materialize, PositionRows;
    SumIsFilled(l, c);
  }

  // -------------------------------------------------------------- runs

  ghost predicate NoticeRun(ls: seq<Ledger>, ns: seq<(Notice, Arrival)>, digest: Notice -> string) {
    && |ls| == |ns| + 1 && LedgerOk(ls[0])
    && forall i :: 0 <= i < |ns| ==> ls[i + 1] == Handle(ls[i], ns[i].0, ns[i].1, digest).0
  }

  lemma {:induction false} RunGrows(ls: seq<Ledger>, ns: seq<(Notice, Arrival)>, digest: Notice -> string, i: nat, j: nat)
    requires NoticeRun(ls, ns, digest) && i <= j < |ls|
    ensures LedgerOk(ls[j]) && Grown(ls[i], ls[j])
    decreases j
  {
    hide Grown, LedgerOk, Handle;
    if j == 0 {
      NothingGrows(ls[0]);
    } else {
      RunGrows(ls, ns, digest, if i < j then i else j - 1, j - 1);
      NoticeGrows(ls[j - 1], ns[j - 1].0, ns[j - 1].1, digest);
      assert ls[j - 1 + 1] == Handle(ls[j - 1], ns[j - 1].0, ns[j - 1].1, digest).0;
      if i == j {
        NothingGrows(ls[j]);
      } else {
        GrownOn(ls[i], ls[j - 1], ls[j]);
      }
    }
  }

  /** Growth composes in all but the order's detailed moves, which do too. */
  lemma GrownOn(l: Ledger, m: Ledger, k: Ledger)
    requires Grown(l, m) && Grown(m, k)
    ensures Grown(l, k)
  {
    forall c | c in l.orders
      ensures Moved(l.orders[c], k.orders[c])
    {
      assert Moved(l.orders[c], m.orders[c]) && Moved(m.orders[c], k.orders[c]);
    }
  }

  /** In any run of notices, one that came in once with a valid instant changes no
      row when it comes in again, except that a fill of it which is recorded but
      was never taken in may then be taken into its position. */
  lemma HandledOnce(ls: seq<Ledger>, ns: seq<(Notice, Arrival)>, digest: Notice -> string, i: nat, j: nat)
    requires NoticeRun(ls, ns, digest) && i < j < |ns| && ns[i].0 == ns[j].0 && FilledAt(ns[i].0, ns[i].1).Some?
    ensures var n, id := ns[j].0, "kis:fill:" + digest(ns[j].0);
            || ls[j + 1] == ls[j]
            || (n.kind.Filling? && HasFill(ls[j].fills, id) && !HasFill(ls[j].applied, id)
                && exists c :: c in ls[j].orders && ls[j + 1] == After(ls[j], Take(ls[j], c, ls[j].orders[c])))
  {
    hide LedgerOk, HandleKnown, Grown, Spent, Take, FilledAt;
    var n, id := ns[j].0, "kis:fill:" + digest(ns[j].0);
    RunGrows(ls, ns, digest, 0, i);
    RunGrows(ls, ns, digest, i, j);
    RunGrows(ls, ns, digest, i + 1, j);
    assert ls[i + 1] == Handle(ls[i], n, ns[i].1, digest).0 && ls[j + 1] == Handle(ls[j], n, ns[j].1, digest).0;
    if ls[j + 1] != ls[j] {
      var c :| Only(ls[j].orders, n.number.value, c)
               && ls[j + 1] == HandleKnown(ls[j], c, n, id, FilledAt(n, ns[j].1).value, ns[j].1.received).0;
      SameNumbers(ls[i], ls[j], n.number.value, c);
      assert exists d :: Only(ls[i].orders, n.number.value, d);
      var at := FilledAt(n, ns[i].1).value;
      assert ls[i + 1] == HandleKnown(ls[i], c, n, id, at, ns[i].1.received).0;
      NoticeIdNotBlank(digest(n));
      HandledIsSpent(ls[i], c, n, id, at, ns[i].1.received);
      SpentStays(ls[i + 1], ls[j], n, c, id);
      SpentChangesNothing(ls[j], c, n, id, FilledAt(n, ns[j].1).value, ns[j].1.received);
    }
  }

  lemma NoticeIdNotBlank(d: string)
    ensures !Blank("kis:fill:" + d)
  {
    assert ("kis:fill:" + d)[0] == 'k';
  }

  lemma SameNumbers(l: Ledger, m: Ledger, number: string, c: string)
    requires Grown(l, m) && Only(m.orders, number, c)
    ensures Only(l.orders, number, c)
  {
    forall d | d in l.orders
      ensures m.orders[d].brokerId == l.orders[d].brokerId
    {
      assert Moved(l.orders[d], m.orders[d]);
    }
  }

  /** Over a whole run: no order is added or lost, and none is filled beyond what
      was requested. */
  lemma NoticesAddNoOrder(ls: seq<Ledger>, ns: seq<(Notice, Arrival)>, digest: Notice -> string, j: nat)
    requires NoticeRun(ls, ns, digest) && j < |ls|
    ensures ls[j].orders.Keys == ls[0].orders.Keys
    ensures forall c :: c in ls[j].orders ==>
              ls[0].orders[c].filled <= ls[j].orders[c].filled == Total(ls[j].fills, SharesOf(c)) <= ls[j].orders[c].requested
  {
    hide LedgerOk, Handle;
    RunGrows(ls, ns, digest, 0, j);
    forall c | c in ls[j].orders
      ensures ls[0].orders[c].filled <= ls[j].orders[c].filled == Total(ls[j].fills, SharesOf(c)) <= ls[j].orders[c].requested
    {
      assert Moved(ls[0].orders[c], ls[j].orders[c]);
      AverageIsMean(ls[j], c);
    }
  }
}
