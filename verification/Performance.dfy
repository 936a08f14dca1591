/** `ops/performance.py`: the realized profit report over broker fills. */
module Performance {
  import opened Wrappers
  import opened LedgerTables
  import opened TradeRows
  import opened FifoLots

  /** Cost estimates in basis points of the notional. */
  datatype Rates = Rates(buy: real, sell: real)

  function Costs(rates: Rates): Piece -> real {
    (p: Piece) => Estimate(rates, Money(p.bought, p.shares), Money(p.sold, p.shares))
  }

  function Estimate(rates: Rates, bought: real, sold: real): real {
    bought * rates.buy / 10000.0 + sold * rates.sell / 10000.0
  }

  function Net(rates: Rates): Piece -> real {
    (p: Piece) => Gross()(p) - Costs(rates)(p)
  }

  datatype Strategy = Strategy(closed: nat, gross: real, costs: real, net: real)

  datatype Report = Report(
    closed: nat, gross: real, costs: real, net: real, wins: seq<real>, losses: seq<real>, winRate: real,
    averageWin: real, averageLoss: real, profitFactor: Option<real>, maxDrawdown: real,
    outcomes: seq<real>, byStrategy: map<string, Strategy>)

  // ------------------------------------------------------------------- sums

  function RealSum(xs: seq<real>): real {
    if xs == [] then 0.0 else RealSum(xs[..|xs| - 1]) + xs[|xs| - 1]
  }

  function NetsOf(ps: seq<Piece>, rates: Rates): seq<real> {
    if ps == [] then [] else NetsOf(ps[..|ps| - 1], rates) + [Net(rates)(ps[|ps| - 1])]
  }

  function CountOf(ps: seq<Piece>, strategy: string): nat {
    if ps == [] then 0 else CountOf(ps[..|ps| - 1], strategy) + if ps[|ps| - 1].strategy == strategy then 1 else 0
  }

  function OfStrategy(strategy: string, f: Piece -> real): Piece -> real {
    (p: Piece) => if p.strategy == strategy then f(p) else 0.0
  }

  /** What a strategy's lots contributed. */
  function StrategyTotal(ps: seq<Piece>, strategy: string, rates: Rates): Strategy {
    Strategy(CountOf(ps, strategy), Sum(ps, OfStrategy(strategy, Gross())), Sum(ps, OfStrategy(strategy, Costs(rates))),
             Sum(ps, OfStrategy(strategy, Net(rates))))
  }

  ghost predicate HasStrategy(ps: seq<Piece>, strategy: string) {
    exists i :: 0 <= i < |ps| && ps[i].strategy == strategy
  }

  /** The running totals are those of the pieces so far. */
  ghost predicate Tallied(ps: seq<Piece>, rates: Rates, outcomes: seq<real>, gross: real, costs: real, table: map<string, Strategy>) {
    && outcomes == NetsOf(ps, rates) && gross == Sum(ps, Gross()) && costs == Sum(ps, Costs(rates))
    && (forall x :: x in table <==> HasStrategy(ps, x))
    && (forall x :: x in table ==> table[x] == StrategyTotal(ps, x, rates))
  }

  lemma {:induction false} AbsentTotal(ps: seq<Piece>, strategy: string, rates: Rates)
    requires !HasStrategy(ps, strategy)
    ensures StrategyTotal(ps, strategy, rates) == Strategy(0, 0.0, 0.0, 0.0)
  {
    if ps != [] {
      assert forall i :: 0 <= i < |ps| - 1 ==> ps[..|ps| - 1][i] == ps[i];
      AbsentTotal(ps[..|ps| - 1], strategy, rates);
    }
  }

  function Credited(table: map<string, Strategy>, p: Piece, rates: Rates): map<string, Strategy> {
    var was := if p.strategy in table then table[p.strategy] else Strategy(0, 0.0, 0.0, 0.0);
    table[p.strategy := Strategy(was.closed + 1, was.gross + Gross()(p), was.costs + Costs(rates)(p), was.net + Net(rates)(p))]
  }

  lemma TallyOneMore(ps: seq<Piece>, p: Piece, rates: Rates, outcomes: seq<real>, gross: real, costs: real, table: map<string, Strategy>)
    requires Tallied(ps, rates, outcomes, gross, costs, table)
    ensures Tallied(ps + [p], rates, outcomes + [Net(rates)(p)], gross + Gross()(p), costs + Costs(rates)(p), Credited(table, p, rates))
  {
    hide Money;
    var qs := ps + [p];
    assert qs[..|qs| - 1] == ps && qs[|qs| - 1] == p;
    var more := Credited(table, p, rates);
    forall x
      ensures x in more <==> HasStrategy(qs, x)
      ensures x in more ==> more[x] == StrategyTotal(qs, x, rates)
    {
      if HasStrategy(ps, x) {
        var i :| 0 <= i < |ps| && ps[i].strategy == x;
        assert qs[i].strategy == x;
      } else {
        AbsentTotal(ps, x, rates);
        assert qs[|ps|] == p;
        assert forall i :: 0 <= i < |ps| ==> qs[i] == ps[i];
      }
    }
  }

  // ------------------------------------------------------------ the main loop

  /** Matching what remains, after `pieces`, comes to matching the whole sale. */
  ghost predicate Continues(queue: seq<Lot>, row: Row, lots: seq<Lot>, remaining: nat, pieces: seq<Piece>)
    requires row.quantity >= 0
  {
    var whole, rest := MatchSale(queue, row, row.quantity), MatchSale(lots, row, remaining);
    if rest.None? then whole.None? else whole == Some((rest.value.0, pieces + rest.value.1))
  }

  lemma ContinuesAtStart(queue: seq<Lot>, row: Row)
    requires row.quantity >= 0
    ensures Continues(queue, row, queue, row.quantity, [])
  {
    var whole := MatchSale(queue, row, row.quantity);
    assert whole.Some? ==> [] + whole.value.1 == whole.value.1;
  }

  lemma ContinuesOn(queue: seq<Lot>, row: Row, lots: seq<Lot>, remaining: nat, pieces: seq<Piece>, matched: Count)
    requires row.quantity >= 0 && Continues(queue, row, lots, remaining, pieces) && lots != [] && 0 < remaining
    requires matched == if remaining < lots[0].quantity then remaining else lots[0].quantity
    ensures Continues(queue, row, LotsLeft(lots, matched), remaining - matched, pieces + [PieceOf(row, lots[0], matched)])
  {
    var p := PieceOf(row, lots[0], matched);
    var later := MatchSale(LotsLeft(lots, matched), row, remaining - matched);
    assert later.Some? ==> pieces + ([p] + later.value.1) == pieces + [p] + later.value.1;
  }

  lemma ContinuesToEnd(queue: seq<Lot>, row: Row, lots: seq<Lot>, remaining: nat, pieces: seq<Piece>)
    requires row.quantity >= 0 && Continues(queue, row, lots, remaining, pieces)
    ensures remaining == 0 ==> MatchSale(queue, row, row.quantity) == Some((lots, pieces))
    ensures remaining > 0 && lots == [] ==> MatchSale(queue, row, row.quantity).None?
  {
    assert pieces + [] == pieces;
  }

  /** The lots of one symbol after a sale took its shares from the oldest ones. */
  method MatchLots(queue: seq<Lot>, row: Row, rates: Rates, ghost before: seq<Piece>,
                   outcomes0: seq<real>, gross0: real, costs0: real, table0: map<string, Strategy>)
    returns (ok: bool, lots: seq<Lot>, outcomes: seq<real>, gross: real, costs: real, table: map<string, Strategy>, ghost pieces: seq<Piece>)
    requires Sane(row) && Tallied(before, rates, outcomes0, gross0, costs0, table0)
    ensures ok == MatchSale(queue, row, row.quantity).Some?
    ensures ok ==> MatchSale(queue, row, row.quantity) == Some((lots, pieces)) && Tallied(before + pieces, rates, outcomes, gross, costs, table)
  {
    hide Money, Tallied, Gross, Costs, Net, Estimate, Continues, MatchSale;
    ok, lots, outcomes, gross, costs, table := true, queue, outcomes0, gross0, costs0, table0;
    pieces := [];
    assert before + [] == before;
    var remaining: nat := row.quantity;
    ContinuesAtStart(queue, row);
    while remaining > 0
      invariant Tallied(before + pieces, rates, outcomes, gross, costs, table)
      invariant Continues(queue, row, lots, remaining, pieces)
    {
      if lots == [] {
        ContinuesToEnd(queue, row, lots, remaining, pieces);
        ok := false;
        return;
      }
      var lot := lots[0];
      var matched: Count := if remaining < lot.quantity then remaining else lot.quantity;
      var buyNotional, sellNotional := Money(lot.price, matched), Money(row.price, matched);
      var gain := sellNotional - buyNotional;
      var cost := Estimate(rates, buyNotional, sellNotional);
      ghost var p := PieceOf(row, lot, matched);
      PieceTotals(p, rates, gain, cost);
      TallyOneMore(before + pieces, p, rates, outcomes, gross, costs, table);
      assert before + pieces + [p] == before + (pieces + [p]);
      outcomes, gross, costs := outcomes + [gain - cost], gross + gain, costs + cost;
      var was := if lot.strategy in table then table[lot.strategy] else Strategy(0, 0.0, 0.0, 0.0);
      table := table[lot.strategy := Strategy(was.closed + 1, was.gross + gain, was.costs + cost, was.net + (gain - cost))];
      ContinuesOn(queue, row, lots, remaining, pieces, matched);
      pieces := pieces + [p];
      remaining := remaining - matched;
      lots := LotsLeft(lots, matched);
    }
    ContinuesToEnd(queue, row, lots, remaining, pieces);
  }

  lemma PieceTotals(p: Piece, rates: Rates, gain: real, cost: real)
    requires gain == Money(p.sold, p.shares) - Money(p.bought, p.shares)
    requires cost == Estimate(rates, Money(p.bought, p.shares), Money(p.sold, p.shares))
    ensures gain == Gross()(p) && cost == Costs(rates)(p) && gain - cost == Net(rates)(p)
  {
  }

  /** The loop over the rows. */
  method MatchAll(rows: seq<Row>, rates: Rates)
    returns (ok: bool, outcomes: seq<real>, gross: real, costs: real, table: map<string, Strategy>, ghost pieces: seq<Piece>)
    ensures ok == Fifo(rows).Some?
    ensures ok ==> pieces == Fifo(rows).value.pieces && Tallied(pieces, rates, outcomes, gross, costs, table)
  {
    hide Tallied, Money, MatchSale;
    ok, pieces := true, [];
    var lots: map<string, seq<Lot>> := map[];
    outcomes, gross, costs, table := [], 0.0, 0.0, map[];
    NothingTallied(rates);
    var i := 0;
    while i < |rows|
      invariant 0 <= i <= |rows|
      invariant Fifo(rows[..i]) == Some(Book(lots, pieces))
      invariant Tallied(pieces, rates, outcomes, gross, costs, table)
    {
      var row := rows[i];
      assert rows[..i + 1][..i] == rows[..i];
      if !Sane(row) {
        FailureStays(rows, i + 1);
        ok := false;
        return;
      }
      var queue := if row.symbol in lots then lots[row.symbol] else [];
      if row.side == Some(Buy) {
        lots := lots[row.symbol := queue + [Lot(row.quantity, row.price, StrategyOf(row))]];
      } else {
        var matched, rest, outcomes1, gross1, costs1, table1, more := MatchLots(queue, row, rates, pieces, outcomes, gross, costs, table);
        if !matched {
          FailureStays(rows, i + 1);
          ok := false;
          return;
        }
        lots := lots[row.symbol := rest];
        outcomes, gross, costs, table := outcomes1, gross1, costs1, table1;
        pieces := pieces + more;
      }
      i := i + 1;
    }
    assert rows[..|rows|] == rows;
  }

  /** What the report says of its outcomes. */
  ghost predicate Figures(r: Report, outcomes: seq<real>, gross: real, costs: real, table: map<string, Strategy>) {
    && r.outcomes == outcomes && r.gross == gross && r.costs == costs && r.net == gross - costs && r.byStrategy == table
    && r.closed == |outcomes| && r.wins == Above(outcomes) && r.losses == Below(outcomes)
    && IsMaxDrawdown(outcomes, r.maxDrawdown)
    && IsMean(r.winRate, |r.wins| as real, |r.wins| + |r.losses|)
    && IsMean(r.averageWin, RealSum(r.wins), |r.wins|) && IsMean(r.averageLoss, RealSum(r.losses), |r.losses|)
    && (r.profitFactor.None? <==> r.losses == [] && r.wins != [])
    && (r.profitFactor.Some? ==> IsRatio(r.profitFactor.value, RealSum(r.wins), -RealSum(r.losses)))
  }

  /** The figures derived from the outcomes. */
  method Summarize(outcomes: seq<real>, gross: real, costs: real, table: map<string, Strategy>) returns (r: Report)
    ensures Figures(r, outcomes, gross, costs, table)
  {
    hide IsMaxDrawdown, IsMean, IsRatio, RealSum, Above, Below;
    var wins, losses := SplitOutcomes(outcomes);
    var drawdown := MaxDrawdown(outcomes);
    BelowIsNegative(outcomes);
    var winRate := Mean(|wins| as real, |wins| + |losses|);
    var averageWin := Mean(RealSum(wins), |wins|);
    var averageLoss := Mean(RealSum(losses), |losses|);
    var factor := if losses != [] then Some(Ratio(RealSum(wins), -RealSum(losses)))
                  else if wins != [] then None else Some(Ratio(0.0, 0.0));
    assert wins == [] ==> RealSum(wins) == 0.0 by {
      NothingSums();
    }
    r := Report(|outcomes|, gross, costs, gross - costs, wins, losses, winRate, averageWin, averageLoss, factor, drawdown, outcomes, table);
  }

  lemma NothingSums()
    ensures RealSum([]) == 0.0
  {
  }

  predicate IsMean(mean: real, total: real, count: nat) {
    if count == 0 then mean == 0.0 else mean * count as real == total
  }

  predicate IsRatio(ratio: real, x: real, y: real) {
    if y == 0.0 then ratio == 0.0 else ratio * y == x
  }

  function Mean(total: real, count: nat): (m: real)
    ensures IsMean(m, total, count)
  {
    if count == 0 then 0.0 else Quotient(total, count as real); total / count as real
  }

  function Ratio(x: real, y: real): (r: real)
    ensures IsRatio(r, x, y)
  {
    if y == 0.0 then 0.0 else Quotient(x, y); x / y
  }

  lemma Quotient(x: real, y: real)
    requires y != 0.0
    ensures x / y * y == x
  {
  }

  /** `build_performance_report`: the rows in order of time and fill id, each sale
      matched against the oldest lots of its symbol. */
  method BuildPerformanceReport(fills: seq<Row>, rates: Rates) returns (r: Outcome<Report>, ghost pieces: seq<Piece>)
    ensures r.Raised? <==> rates.buy < 0.0 || rates.sell < 0.0 || Fifo(SortedRows(fills)).None?
    ensures r.Done? ==>
              && pieces == Fifo(SortedRows(fills)).value.pieces && r.value.closed == |pieces|
              && Tallied(pieces, rates, r.value.outcomes, r.value.gross, r.value.costs, r.value.byStrategy)
              && Figures(r.value, r.value.outcomes, r.value.gross, r.value.costs, r.value.byStrategy)
  {
    hide Tallied, IsMaxDrawdown, IsRatio, IsMean, RealSum, Above, Below;
    pieces := [];
    if rates.buy < 0.0 || rates.sell < 0.0 {
      return Raised(InvalidArgument), [];
    }
    var ok, outcomes, gross, costs, table, all := MatchAll(SortedRows(fills), rates);
    if !ok {
      return Raised(SellExceedsPosition), [];
    }
    pieces := all;
    CountOutcomes(pieces, rates, outcomes, gross, costs, table);
    var report := Summarize(outcomes, gross, costs, table);
    r := Done(report);
  }

  lemma NothingTallied(rates: Rates)
    ensures Tallied([], rates, [], 0.0, 0.0, map[])
  {
  }

  lemma {:induction false} CountOutcomes(ps: seq<Piece>, rates: Rates, outcomes: seq<real>, gross: real, costs: real, table: map<string, Strategy>)
    requires Tallied(ps, rates, outcomes, gross, costs, table)
    ensures |outcomes| == |ps|
  {
    NetsLength(ps, rates);
  }

  lemma {:induction false} NetsLength(ps: seq<Piece>, rates: Rates)
    ensures |NetsOf(ps, rates)| == |ps|
  {
    if ps != [] {
      NetsLength(ps[..|ps| - 1], rates);
    }
  }

  lemma {:induction false} FailureStays(rows: seq<Row>, n: nat)
    requires n <= |rows| && Fifo(rows[..n]).None?
    ensures Fifo(rows).None?
    decreases |rows|
  {
    if n == |rows| {
      assert rows[..n] == rows;
    } else {
      assert rows[..|rows| - 1][..n] == rows[..n];
      FailureStays(rows[..|rows| - 1], n);
    }
  }

  // ---------------------------------------------------- wins, losses, drawdown

  function Above(xs: seq<real>): seq<real> {
    if xs == [] then []
    else if xs[|xs| - 1] > 0.0 then Above(xs[..|xs| - 1]) + [xs[|xs| - 1]] else Above(xs[..|xs| - 1])
  }

  function Below(xs: seq<real>): seq<real> {
    if xs == [] then []
    else if xs[|xs| - 1] < 0.0 then Below(xs[..|xs| - 1]) + [xs[|xs| - 1]] else Below(xs[..|xs| - 1])
  }

  method SplitOutcomes(xs: seq<real>) returns (wins: seq<real>, losses: seq<real>)
    ensures wins == Above(xs) && losses == Below(xs)
  {
    wins, losses := [], [];
    var i := 0;
    while i < |xs|
      invariant 0 <= i <= |xs| && wins == Above(xs[..i]) && losses == Below(xs[..i])
    {
      assert xs[..i + 1][..i] == xs[..i];
      if xs[i] > 0.0 {
        wins := wins + [xs[i]];
      } else if xs[i] < 0.0 {
        losses := losses + [xs[i]];
      }
      i := i + 1;
    }
    assert xs[..|xs|] == xs;
  }

  lemma {:induction false} BelowIsNegative(xs: seq<real>)
    ensures Below(xs) != [] ==> RealSum(Below(xs)) < 0.0
    ensures Below(xs) == [] ==> RealSum(Below(xs)) == 0.0
  {
    if xs != [] {
      BelowIsNegative(xs[..|xs| - 1]);
      if xs[|xs| - 1] < 0.0 {
        var ys := Below(xs[..|xs| - 1]) + [xs[|xs| - 1]];
        assert ys[..|ys| - 1] == Below(xs[..|xs| - 1]);
      }
    }
  }

  lemma {:induction false} WinsAndLossesMakeTheSum(xs: seq<real>)
    ensures RealSum(Above(xs)) + RealSum(Below(xs)) == RealSum(xs)
  {
    if xs != [] {
      var front, x := xs[..|xs| - 1], xs[|xs| - 1];
      WinsAndLossesMakeTheSum(front);
      assert (Above(front) + [x])[..|Above(front)|] == Above(front);
      assert (Below(front) + [x])[..|Below(front)|] == Below(front);
    }
  }

  /** The largest fall of the running total from any earlier value, start included. */
  ghost predicate IsMaxDrawdown(xs: seq<real>, d: real) {
    && (forall i, j :: 0 <= i <= j <= |xs| ==> RealSum(xs[..i]) - RealSum(xs[..j]) <= d)
    && exists i, j :: 0 <= i <= j <= |xs| && RealSum(xs[..i]) - RealSum(xs[..j]) == d
  }

  method MaxDrawdown(xs: seq<real>) returns (drawdown: real)
    ensures IsMaxDrawdown(xs, drawdown)
  {
    var equity, peak := 0.0, 0.0;
    drawdown := 0.0;
    ghost var top, low, high := 0, 0, 0;
    var i := 0;
    while i < |xs|
      invariant 0 <= i <= |xs| && equity == RealSum(xs[..i])
      invariant 0 <= top <= i && peak == RealSum(xs[..top]) && forall k :: 0 <= k <= i ==> RealSum(xs[..k]) <= peak
      invariant 0 <= high <= low <= i && drawdown == RealSum(xs[..high]) - RealSum(xs[..low])
      invariant forall a, b :: 0 <= a <= b <= i ==> RealSum(xs[..a]) - RealSum(xs[..b]) <= drawdown
    {
      assert xs[..i + 1][..i] == xs[..i];
      equity := equity + xs[i];
      i := i + 1;
      if equity > peak {
        peak, top := equity, i;
      }
      if peak - equity > drawdown {
        drawdown, high, low := peak - equity, top, i;
      }
    }
  }

  // --------------------------------------------------------------- identities

  /** The estimated costs are the buy rate on what the matched shares cost and the
      sell rate on what they sold for. */
  lemma {:induction false} CostsFollowRates(ps: seq<Piece>, rates: Rates)
    ensures Sum(ps, Costs(rates)) == rates.buy * Sum(ps, Basis()) / 10000.0 + rates.sell * Sum(ps, Proceeds()) / 10000.0
  {
    hide Money;
    if ps != [] {
      var front, p := ps[..|ps| - 1], ps[|ps| - 1];
      CostsFollowRates(front, rates);
      RateSplits(rates.buy, Sum(front, Basis()), Money(p.bought, p.shares));
      RateSplits(rates.sell, Sum(front, Proceeds()), Money(p.sold, p.shares));
    }
  }

  lemma RateSplits(rate: real, x: real, y: real)
    ensures rate * (x + y) / 10000.0 == rate * x / 10000.0 + y * rate / 10000.0
  {
    assert rate * (x + y) == rate * x + y * rate;
  }

  lemma {:induction false} NetIsGrossLessCosts(ps: seq<Piece>, rates: Rates)
    ensures RealSum(NetsOf(ps, rates)) == Sum(ps, Gross()) - Sum(ps, Costs(rates)) == Sum(ps, Net(rates))
  {
    hide Money;
    if ps != [] {
      var front := ps[..|ps| - 1];
      NetIsGrossLessCosts(front, rates);
      var xs := NetsOf(front, rates);
      assert (xs + [Net(rates)(ps[|ps| - 1])])[..|xs|] == xs;
    }
  }

  function SumOver(keys: seq<string>, table: map<string, Strategy>): Strategy
    requires forall k :: k in keys ==> k in table
  {
    if keys == [] then Strategy(0, 0.0, 0.0, 0.0)
    else
      var s, x := SumOver(keys[1..], table), table[keys[0]];
      Strategy(s.closed + x.closed, s.gross + x.gross, s.costs + x.costs, s.net + x.net)
  }

  ghost predicate Distinct(keys: seq<string>) {
    forall i, j :: 0 <= i < j < |keys| ==> keys[i] != keys[j]
  }

  /** Summing a weight by strategy, or at once. */
  ghost function ByStrategy(keys: seq<string>, ps: seq<Piece>, f: Piece -> real): real {
    if keys == [] then 0.0 else Sum(ps, OfStrategy(keys[0], f)) + ByStrategy(keys[1..], ps, f)
  }

  lemma {:induction false} ByStrategySplit(keys: seq<string>, ps: seq<Piece>, p: Piece, f: Piece -> real)
    requires Distinct(keys)
    ensures ByStrategy(keys, ps + [p], f) == ByStrategy(keys, ps, f) + if p.strategy in keys then f(p) else 0.0
  {
    if keys != [] {
      ByStrategySplit(keys[1..], ps, p, f);
      assert (ps + [p])[..|ps|] == ps;
      assert p.strategy in keys <==> p.strategy == keys[0] || p.strategy in keys[1..];
      if p.strategy == keys[0] {
        assert p.strategy !in keys[1..];
      }
    }
  }

  lemma {:induction false} ByStrategyIsSum(keys: seq<string>, ps: seq<Piece>, f: Piece -> real)
    requires Distinct(keys) && forall i :: 0 <= i < |ps| ==> ps[i].strategy in keys
    ensures ByStrategy(keys, ps, f) == Sum(ps, f)
  {
    if ps == [] {
      NothingByStrategy(keys, f);
    } else {
      var front, p := ps[..|ps| - 1], ps[|ps| - 1];
      assert ps == front + [p];
      ByStrategyIsSum(keys, front, f);
      ByStrategySplit(keys, front, p, f);
    }
  }

  lemma {:induction false} NothingByStrategy(keys: seq<string>, f: Piece -> real)
    ensures ByStrategy(keys, [], f) == 0.0
  {
    if keys != [] {
      NothingByStrategy(keys[1..], f);
    }
  }

  lemma {:induction false} SumOverIsByStrategy(keys: seq<string>, ps: seq<Piece>, rates: Rates, table: map<string, Strategy>)
    requires forall k :: k in keys ==> k in table && table[k] == StrategyTotal(ps, k, rates)
    ensures var s := SumOver(keys, table);
            && s.gross == ByStrategy(keys, ps, Gross()) && s.costs == ByStrategy(keys, ps, Costs(rates))
            && s.net == ByStrategy(keys, ps, Net(rates))
  {
    if keys != [] {
      assert keys[0] in keys && forall k :: k in keys[1..] ==> k in keys;
      SumOverIsByStrategy(keys[1..], ps, rates, table);
    }
  }

  /** The report's identities: net profit is gross less costs, is the sum of the
      outcomes, is wins plus losses, and is the sum over the strategies. */
  lemma ReportAddsUp(ps: seq<Piece>, rates: Rates, outcomes: seq<real>, gross: real, costs: real, table: map<string, Strategy>, keys: seq<string>)
    requires Tallied(ps, rates, outcomes, gross, costs, table)
    requires Distinct(keys) && forall k :: k in keys <==> k in table
    ensures gross - costs == RealSum(outcomes) == RealSum(Above(outcomes)) + RealSum(Below(outcomes))
    ensures var s := SumOver(keys, table); s.gross == gross && s.costs == costs && s.net == gross - costs
  {
    hide Gross, Costs, Net;
    NetIsGrossLessCosts(ps, rates);
    WinsAndLossesMakeTheSum(outcomes);
    SumOverIsByStrategy(keys, ps, rates, table);
    forall i | 0 <= i < |ps|
      ensures ps[i].strategy in keys
    {
      assert HasStrategy(ps, ps[i].strategy);
    }
    ByStrategyIsSum(keys, ps, Gross());
    ByStrategyIsSum(keys, ps, Costs(rates));
    ByStrategyIsSum(keys, ps, Net(rates));
  }
}
