/** `calculate_local_daily_realized_pnl` of `risk/portfolio_snapshot.py`: the
    second first-in-first-out matcher, over lots without a strategy. */
module PortfolioSnapshot {
  import opened Wrappers
  import opened LedgerTables
  import opened TradeRows
  import opened FifoLots
  import opened Performance

  const DAY := 86400

  function DayOf(at: int): int {
    at / DAY
  }

  /** A review flag that reads "false", with the instant it was written. */
  datatype Gates = Gates(review: Option<int>, entries: Option<int>) {
    predicate Cleared(flag: Option<int>, now: int) {
      flag.Some? && DayOf(flag.value) == DayOf(now) && flag.value <= now
    }

    predicate Pass(now: int) {
      Cleared(review, now) && Cleared(entries, now)
    }

    function Through(): int
      requires review.Some? && entries.Some?
    {
      if review.value < entries.value then review.value else entries.value
    }
  }

  datatype Plain = Plain(quantity: Count, price: real)

  function PlainOf(lots: seq<Lot>): seq<Plain> {
    seq(|lots|, i requires 0 <= i < |lots| => Plain(lots[i].quantity, lots[i].price))
  }

  function OnDay(day: int, f: Piece -> real): Piece -> real {
    (p: Piece) => if DayOf(p.at) == day then f(p) else 0.0
  }

  /** The day's figure as the pieces have it. */
  function Daily(b: Book, rates: Rates, day: int): real {
    Sum(b.pieces, OnDay(day, Net(rates)))
  }

  lemma PlainLeft(lots: seq<Lot>, matched: Count)
    requires lots != [] && matched <= lots[0].quantity
    ensures var plain := PlainOf(lots);
            PlainOf(LotsLeft(lots, matched))
            == if matched == plain[0].quantity then plain[1..] else [Plain(plain[0].quantity - matched, plain[0].price)] + plain[1..]
  {
    var plain, left := PlainOf(lots), LotsLeft(lots, matched);
    if matched < lots[0].quantity {
      assert PlainOf(left) == [Plain(plain[0].quantity - matched, plain[0].price)] + plain[1..];
    } else {
      assert PlainOf(left) == plain[1..];
    }
  }

  function Realized(rates: Rates, bought: real, sold: real): real {
    sold - bought - bought * rates.buy / 10000.0 - sold * rates.sell / 10000.0
  }

  lemma RealizedIsNet(p: Piece, rates: Rates)
    ensures Realized(rates, Money(p.bought, p.shares), Money(p.sold, p.shares)) == Net(rates)(p)
  {
    var bought, sold := Money(p.bought, p.shares), Money(p.sold, p.shares);
    RealizedSplits(rates, bought, sold);
    PieceTotals(p, rates, sold - bought, Estimate(rates, bought, sold));
  }

  lemma RealizedSplits(rates: Rates, bought: real, sold: real)
    ensures Realized(rates, bought, sold) == sold - bought - Estimate(rates, bought, sold)
  {
  }

  /** One sale against the plain lots of its symbol. */
  method SellPlain(queue: seq<Plain>, row: Row, rates: Rates, ghost lots: seq<Lot>)
    returns (ok: bool, left: seq<Plain>, realized: real, ghost rest: seq<Lot>, ghost pieces: seq<Piece>)
    requires Sane(row) && queue == PlainOf(lots)
    ensures ok == MatchSale(lots, row, row.quantity).Some?
    ensures ok ==> MatchSale(lots, row, row.quantity) == Some((rest, pieces)) && left == PlainOf(rest) && realized == Sum(pieces, Net(rates))
  {
    hide Money, Net, Realized, Continues, MatchSale, PlainOf;
    ok, left, realized, rest, pieces := true, queue, 0.0, lots, [];
    var remaining: nat := row.quantity;
    ContinuesAtStart(lots, row);
    while remaining > 0
      invariant left == PlainOf(rest) && realized == Sum(pieces, Net(rates))
      invariant Continues(lots, row, rest, remaining, pieces)
    {
      SameLength(rest);
      if left == [] {
        ContinuesToEnd(lots, row, rest, remaining, pieces);
        ok := false;
        return;
      }
      var lot := left[0];
      FirstPlain(rest);
      var matched: Count := if remaining < lot.quantity then remaining else lot.quantity;
      ghost var p := PieceOf(row, rest[0], matched);
      RealizedIsNet(p, rates);
      realized := realized + Realized(rates, Money(lot.price, matched), Money(row.price, matched));
      SumAppend(pieces, [p], Net(rates));
      SumOne(p, Net(rates));
      ContinuesOn(lots, row, rest, remaining, pieces, matched);
      PlainLeft(rest, matched);
      pieces := pieces + [p];
      rest := LotsLeft(rest, matched);
      remaining := remaining - matched;
      left := if matched == lot.quantity then left[1..] else [Plain(lot.quantity - matched, lot.price)] + left[1..];
    }
    ContinuesToEnd(lots, row, rest, remaining, pieces);
  }

  lemma SameLength(lots: seq<Lot>)
    ensures |PlainOf(lots)| == |lots|
  {
  }

  lemma FirstPlain(lots: seq<Lot>)
    requires lots != []
    ensures PlainOf(lots) != [] && PlainOf(lots)[0] == Plain(lots[0].quantity, lots[0].price)
  {
  }

  /** The plain lots hold what the book holds. */
  ghost predicate Holds(lots: map<string, seq<Plain>>, b: Book) {
    forall s :: (if s in lots then lots[s] else []) == PlainOf(b.LotsOf(s))
  }

  predicate InTime(row: Row, now: int, through: int) {
    row.at <= now && row.at <= through
  }

  ghost predicate AllInTime(rows: seq<Row>, now: int, through: int) {
    forall k :: 0 <= k < |rows| ==> InTime(rows[k], now, through)
  }

  lemma MoreInTime(rows: seq<Row>, i: nat, now: int, through: int)
    requires i < |rows| && AllInTime(rows[..i], now, through)
    ensures AllInTime(rows[..i + 1], now, through) <==> InTime(rows[i], now, through)
    ensures AllInTime(rows, now, through) ==> InTime(rows[i], now, through)
  {
    var longer := rows[..i + 1];
    assert longer[i] == rows[i] && forall k :: 0 <= k < i ==> longer[k] == rows[..i][k];
  }

  lemma HoldsWith(lots: map<string, seq<Plain>>, b: Book, c: Book, symbol: string, left: seq<Plain>)
    requires Holds(lots, b) && c.lots.Keys == b.lots.Keys + {symbol} && left == PlainOf(c.LotsOf(symbol))
    requires forall s :: s in b.lots && s != symbol ==> c.lots[s] == b.lots[s]
    ensures Holds(lots[symbol := left], c)
  {
    hide PlainOf;
    forall s
      ensures (if s in lots[symbol := left] then lots[symbol := left][s] else []) == PlainOf(c.LotsOf(s))
    {
      assert (if s in lots then lots[s] else []) == PlainOf(b.LotsOf(s));
    }
  }

  /** One row: a purchase adds a lot, a sale takes from the oldest ones and counts
      if it falls on the day. */
  method TakeRow(lots0: map<string, seq<Plain>>, realized0: real, row: Row, rates: Rates, day: int, ghost b: Book)
    returns (ok: bool, lots: map<string, seq<Plain>>, realized: real)
    requires Sane(row) && Holds(lots0, b) && realized0 == Daily(b, rates, day)
    ensures ok == Traded(b, row).Some?
    ensures ok ==> Holds(lots, Traded(b, row).value) && realized == Daily(Traded(b, row).value, rates, day)
  {
    hide Money, Net, MatchSale, PlainOf, Holds;
    ok, lots, realized := true, lots0, realized0;
    var queue := if row.symbol in lots then lots[row.symbol] else [];
    QueueOf(lots, b, row.symbol);
    if row.side == Some(Buy) {
      PlainAppend(b.LotsOf(row.symbol), Lot(row.quantity, row.price, StrategyOf(row)));
      HoldsWith(lots, b, Traded(b, row).value, row.symbol, queue + [Plain(row.quantity, row.price)]);
      lots := lots[row.symbol := queue + [Plain(row.quantity, row.price)]];
    } else {
      var sold, left, gain, rest, pieces := SellPlain(queue, row, rates, b.LotsOf(row.symbol));
      ok := sold;
      if ok {
        HoldsWith(lots, b, Traded(b, row).value, row.symbol, left);
        lots := lots[row.symbol := left];
        SumAppend(b.pieces, pieces, OnDay(day, Net(rates)));
        SaleDay(b.LotsOf(row.symbol), row, rates, day);
        if DayOf(row.at) == day {
          realized := realized + gain;
        }
      }
    }
  }

  lemma FifoOneMore(rows: seq<Row>, i: nat)
    requires i < |rows| && Fifo(rows[..i]).Some?
    ensures Fifo(rows[..i + 1]) == Traded(Fifo(rows[..i]).value, rows[i])
    ensures Fifo(rows[..i + 1]).None? ==> Fifo(rows).None?
    ensures !Sane(rows[i]) ==> Fifo(rows).None?
  {
    hide Sane;
    assert rows[..i + 1][..i] == rows[..i];
    if Fifo(rows[..i + 1]).None? {
      FailureStays(rows, i + 1);
    }
  }

  /** What the gates ask of the flags and the rows. */
  lemma GatesSay(gates: Gates, rows: seq<Row>, now: int)
    ensures gates.Pass(now) && AllInTime(rows, now, gates.Through()) <==>
              && gates.review.Some? && gates.entries.Some?
              && gates.review.value / 86400 == gates.entries.value / 86400 == now / 86400
              && gates.review.value <= now && gates.entries.value <= now
              && forall k :: 0 <= k < |rows| ==> rows[k].at <= gates.review.value && rows[k].at <= gates.entries.value
  {
  }

  /** No figure unless both flags were cleared today, every row is usable and not
      later than the last reconciliation, and no sale exceeds its lots. Otherwise
      it is the day's part of the first matcher's net. */
  method DailyRealizedPnl(rows: seq<Row>, rates: Rates, gates: Gates, now: int) returns (r: Option<real>)
    ensures r.Some? <==> gates.Pass(now) && Fifo(rows).Some? && AllInTime(rows, now, gates.Through())
    ensures r.Some? ==> r.value == Daily(Fifo(rows).value, rates, DayOf(now))
    ensures r.Some? <==>
              && gates.review.Some? && gates.entries.Some? && Fifo(rows).Some?
              && gates.review.value / 86400 == gates.entries.value / 86400 == now / 86400
              && gates.review.value <= now && gates.entries.value <= now
              && forall k :: 0 <= k < |rows| ==> rows[k].at <= gates.review.value && rows[k].at <= gates.entries.value
  {
    hide AllInTime, Holds, Traded, Fifo, Sane, Daily;
    GatesSay(gates, rows, now);
    if !gates.Pass(now) {
      return None;
    }
    var through := gates.Through();
    var lots: map<string, seq<Plain>> := map[];
    var realized := 0.0;
    NothingHeld(rates, now, through);
    var i := 0;
    assert rows[..0] == [];
    while i < |rows|
      invariant 0 <= i <= |rows|
      invariant Fifo(rows[..i]).Some? && Holds(lots, Fifo(rows[..i]).value)
      invariant realized == Daily(Fifo(rows[..i]).value, rates, DayOf(now))
      invariant AllInTime(rows[..i], now, through)
    {
      var row := rows[i];
      MoreInTime(rows, i, now, through);
      FifoOneMore(rows, i);
      if !Sane(row) || row.at > now || row.at > through {
        return None;
      }
      var ok, lots1, realized1 := TakeRow(lots, realized, row, rates, DayOf(now), Fifo(rows[..i]).value);
      if !ok {
        return None;
      }
      lots, realized := lots1, realized1;
      i := i + 1;
    }
    assert rows[..|rows|] == rows;
    r := Some(realized);
  }

  lemma NothingHeld(rates: Rates, now: int, through: int)
    ensures Fifo([]) == Some(NO_TRADES) && Holds(map[], NO_TRADES) && Daily(NO_TRADES, rates, DayOf(now)) == 0.0 && AllInTime([], now, through)
  {
  }

  lemma QueueOf(lots: map<string, seq<Plain>>, b: Book, symbol: string)
    requires Holds(lots, b)
    ensures (if symbol in lots then lots[symbol] else []) == PlainOf(b.LotsOf(symbol))
  {
  }

  lemma PlainAppend(lots: seq<Lot>, lot: Lot)
    ensures PlainOf(lots + [lot]) == PlainOf(lots) + [Plain(lot.quantity, lot.price)]
  {
  }

  /** All pieces of a sale fall on its day. */
  lemma SaleDay(lots: seq<Lot>, row: Row, rates: Rates, day: int)
    requires row.quantity >= 0 && MatchSale(lots, row, row.quantity).Some?
    ensures var pieces := MatchSale(lots, row, row.quantity).value.1;
            Sum(pieces, OnDay(day, Net(rates))) == if DayOf(row.at) == day then Sum(pieces, Net(rates)) else 0.0
  {
    hide Net;
    SaleConserves(lots, row, row.quantity);
    DayOfAll(MatchSale(lots, row, row.quantity).value.1, row.at, day, Net(rates));
  }

  lemma {:induction false} DayOfAll(ps: seq<Piece>, at: int, day: int, f: Piece -> real)
    requires forall p :: p in ps ==> p.at == at
    ensures Sum(ps, OnDay(day, f)) == if DayOf(at) == day then Sum(ps, f) else 0.0
  {
    if ps != [] {
      assert ps[|ps| - 1] in ps && forall p :: p in ps[..|ps| - 1] ==> p in ps;
      DayOfAll(ps[..|ps| - 1], at, day, f);
    }
  }

  // ------------------------------------------------- agreement with the report

  /** The report's outcomes that came from one day's sales. */
  function DayTotal(outcomes: seq<real>, ps: seq<Piece>, day: int): real
    requires |outcomes| == |ps|
  {
    if ps == [] then 0.0
    else DayTotal(outcomes[..|ps| - 1], ps[..|ps| - 1], day) + if DayOf(ps[|ps| - 1].at) == day then outcomes[|ps| - 1] else 0.0
  }

  lemma {:induction false} DayTotalIsSum(ps: seq<Piece>, rates: Rates, day: int)
    ensures |NetsOf(ps, rates)| == |ps|
    ensures DayTotal(NetsOf(ps, rates), ps, day) == Sum(ps, OnDay(day, Net(rates)))
  {
    hide Net;
    NetsLength(ps, rates);
    if ps != [] {
      DayTotalIsSum(ps[..|ps| - 1], rates, day);
      var xs := NetsOf(ps[..|ps| - 1], rates);
      assert NetsOf(ps, rates)[..|ps| - 1] == xs;
    }
  }

  /** On the rows as the ledger keeps them, the second matcher's figure for a day
      is the sum of the report's outcomes from that day's sales. */
  lemma DailyAgreesWithReport(rows: seq<Row>, rates: Rates, day: int)
    requires InOrder(rows) && Fifo(rows).Some?
    ensures Fifo(SortedRows(rows)).Some?
    ensures var pieces := Fifo(SortedRows(rows)).value.pieces;
            |NetsOf(pieces, rates)| == |pieces| && Daily(Fifo(rows).value, rates, day) == DayTotal(NetsOf(pieces, rates), pieces, day)
  {
    SortingSorts(rows);
    DayTotalIsSum(Fifo(rows).value.pieces, rates, day);
  }

  ghost function DailySum(days: seq<int>, ps: seq<Piece>, f: Piece -> real): real {
    if days == [] then 0.0 else Sum(ps, OnDay(days[0], f)) + DailySum(days[1..], ps, f)
  }

  ghost predicate DistinctDays(days: seq<int>) {
    forall i, j :: 0 <= i < j < |days| ==> days[i] != days[j]
  }

  lemma {:induction false} DailySplit(days: seq<int>, ps: seq<Piece>, p: Piece, f: Piece -> real)
    requires DistinctDays(days)
    ensures DailySum(days, ps + [p], f) == DailySum(days, ps, f) + if DayOf(p.at) in days then f(p) else 0.0
  {
    if days != [] {
      DailySplit(days[1..], ps, p, f);
      assert (ps + [p])[..|ps|] == ps;
      assert DayOf(p.at) in days <==> DayOf(p.at) == days[0] || DayOf(p.at) in days[1..];
      if DayOf(p.at) == days[0] {
        assert DayOf(p.at) !in days[1..];
      }
    }
  }

  lemma {:induction false} NothingDaily(days: seq<int>, f: Piece -> real)
    ensures DailySum(days, [], f) == 0.0
  {
    if days != [] {
      NothingDaily(days[1..], f);
    }
  }

  /** Added up over all days with sales, the daily figures give the report's net. */
  lemma {:induction false} DaysAddUpToNet(days: seq<int>, ps: seq<Piece>, rates: Rates)
    requires DistinctDays(days) && forall i :: 0 <= i < |ps| ==> DayOf(ps[i].at) in days
    ensures DailySum(days, ps, Net(rates)) == RealSum(NetsOf(ps, rates))
  {
    hide Net;
    if ps == [] {
      NothingDaily(days, Net(rates));
    } else {
      var front, p := ps[..|ps| - 1], ps[|ps| - 1];
      assert ps == front + [p];
      DaysAddUpToNet(days, front, rates);
      DailySplit(days, front, p, Net(rates));
      var xs := NetsOf(front, rates);
      assert (xs + [Net(rates)(p)])[..|xs|] == xs;
    }
  }
}
