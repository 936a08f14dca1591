/** `broker/kis_market_rules.py`, and the risk plan `ai/decision.py` builds on it. */
module KrxMarketRules {
  import opened Wrappers

  function TickSize(price: real): int {
    if price < 2000.0 then 1
    else if price < 5000.0 then 5
    else if price < 20000.0 then 10
    else if price < 50000.0 then 50
    else if price < 200000.0 then 100
    else if price < 500000.0 then 500
    else 1000
  }

  function Ceiling(x: real): int {
    -((-x).Floor)
  }

  datatype Rounding = Down | Up

  /** `normalize_krx_limit_price`: a buy rounds down, a sell rounds up. */
  function Normalize(price: real, rounding: Rounding): Outcome<int> {
    if price <= 0.0 then Raised(InvalidArgument)
    else
      var tick := TickSize(price);
      var units := price / tick as real;
      var normalized := (if rounding.Down? then units.Floor else Ceiling(units)) * tick;
      if normalized <= 0 then Raised(InvalidArgument) else Done(normalized)
  }

  /** `is_valid_krx_limit_price` on a real price, and on a whole one. */
  predicate IsValid(price: real) {
    price > 0.0 && price == price.Floor as real && price.Floor % TickSize(price) == 0
  }

  predicate OnTick(n: int) {
    n > 0 && n % TickSize(n as real) == 0
  }

  lemma WholePrices(price: real)
    ensures IsValid(price) <==> exists n: int :: n as real == price && OnTick(n)
  {
    if IsValid(price) {
      assert price.Floor as real == price && OnTick(price.Floor);
    }
  }

  // ---------------------------------------------------------- one grid of ticks

  /** The multiples of `tick` next to a price. */
  lemma NextMultiples(price: real, tick: int)
    requires price > 0.0 && tick > 0
    ensures var q := (price / tick as real).Floor; q >= 0 && (q * tick) as real <= price < ((q + 1) * tick) as real
    ensures var u := Ceiling(price / tick as real); u >= 1 && ((u - 1) * tick) as real < price <= (u * tick) as real
  {
    var t := tick as real;
    var units := price / t;
    assert units * t == price;
    var q, u := units.Floor, Ceiling(units);
    assert q as real <= units < (q + 1) as real;
    assert (u - 1) as real < units <= u as real;
    Scale(q, units, tick);
    Scale(q + 1, units, tick);
    Scale(u, units, tick);
    Scale(u - 1, units, tick);
  }

  lemma Scale(k: int, units: real, tick: int)
    requires tick > 0
    ensures (k * tick) as real == k as real * tick as real
    ensures k as real <= units <==> (k * tick) as real <= units * tick as real
    ensures units <= k as real <==> units * tick as real <= (k * tick) as real
  {
    var t, x := tick as real, k as real;
    assert (k * tick) as real == x * t;
    assert (units - x) * t == units * t - x * t;
  }

  predicate IsTick(tick: int) {
    tick == 1 || tick == 5 || tick == 10 || tick == 50 || tick == 100 || tick == 500 || tick == 1000
  }

  lemma MultipleOf(k: int, tick: int)
    requires IsTick(tick)
    ensures (k * tick) % tick == 0
  {
    MultiplesByTick(k);
  }

  lemma MultiplesByTick(k: int)
    ensures (k * 1) % 1 == 0 && (k * 5) % 5 == 0 && (k * 10) % 10 == 0 && (k * 50) % 50 == 0
    ensures (k * 100) % 100 == 0 && (k * 500) % 500 == 0 && (k * 1000) % 1000 == 0
  {
  }

  lemma MultiplesOrdered(m: int, tick: int, k: int)
    requires IsTick(tick) && m % tick == 0
    ensures m < (k + 1) * tick ==> m <= k * tick
    ensures (k - 1) * tick < m ==> k * tick <= m
  {
    By5(m, k);
    By10(m, k);
    By50(m, k);
    By100(m, k);
    By500(m, k);
    By1000(m, k);
  }

  lemma By5(m: int, k: int)
    ensures m % 5 == 0 && m < (k + 1) * 5 ==> m <= k * 5
    ensures m % 5 == 0 && (k - 1) * 5 < m ==> k * 5 <= m
  {
  }

  lemma By10(m: int, k: int)
    ensures m % 10 == 0 && m < (k + 1) * 10 ==> m <= k * 10
    ensures m % 10 == 0 && (k - 1) * 10 < m ==> k * 10 <= m
  {
  }

  lemma By50(m: int, k: int)
    ensures m % 50 == 0 && m < (k + 1) * 50 ==> m <= k * 50
    ensures m % 50 == 0 && (k - 1) * 50 < m ==> k * 50 <= m
  {
  }

  lemma By100(m: int, k: int)
    ensures m % 100 == 0 && m < (k + 1) * 100 ==> m <= k * 100
    ensures m % 100 == 0 && (k - 1) * 100 < m ==> k * 100 <= m
  {
  }

  lemma By500(m: int, k: int)
    ensures m % 500 == 0 && m < (k + 1) * 500 ==> m <= k * 500
    ensures m % 500 == 0 && (k - 1) * 500 < m ==> k * 500 <= m
  {
  }

  lemma By1000(m: int, k: int)
    ensures m % 1000 == 0 && m < (k + 1) * 1000 ==> m <= k * 1000
    ensures m % 1000 == 0 && (k - 1) * 1000 < m ==> k * 1000 <= m
  {
  }

  // ------------------------------------------------------------ across bands

  /** The upper end of a price's band, itself on every tick around it. */
  function BandEnd(price: real): Option<int> {
    if price < 2000.0 then Some(2000)
    else if price < 5000.0 then Some(5000)
    else if price < 20000.0 then Some(20000)
    else if price < 50000.0 then Some(50000)
    else if price < 200000.0 then Some(200000)
    else if price < 500000.0 then Some(500000)
    else None
  }

  function BandStart(price: real): int {
    if price < 2000.0 then 0
    else if price < 5000.0 then 2000
    else if price < 20000.0 then 5000
    else if price < 50000.0 then 20000
    else if price < 200000.0 then 50000
    else if price < 500000.0 then 200000
    else 500000
  }

  lemma Bands(price: real)
    requires price > 0.0
    ensures IsTick(TickSize(price)) && BandStart(price) as real <= price
    ensures BandStart(price) % TickSize(price) == 0
    ensures BandStart(price) > 0 ==> OnTick(BandStart(price))
    ensures BandEnd(price).Some? ==>
              price < BandEnd(price).value as real && OnTick(BandEnd(price).value) && BandEnd(price).value % TickSize(price) == 0
  {
  }

  /** A whole price from the start to before the end of a band has its tick. */
  lemma SameBand(price: real, n: int)
    requires price > 0.0 && BandStart(price) <= n && (BandEnd(price).Some? ==> n < BandEnd(price).value)
    ensures TickSize(n as real) == TickSize(price)
  {
  }

  /** A buy price is rounded to the greatest valid price at or below it, also
      across band edges; there is none exactly when it is below one won. */
  lemma BuyIsGreatest(price: real)
    requires price > 0.0
    ensures Normalize(price, Down).Done? <==> price >= 1.0
    ensures Normalize(price, Down).Done? ==>
              var n := Normalize(price, Down).value;
              OnTick(n) && n as real <= price && forall m :: OnTick(m) && m as real <= price ==> m <= n
    ensures Normalize(price, Down).Raised? ==> forall m :: OnTick(m) ==> price < m as real
  {
    var tick := TickSize(price);
    var q := (price / tick as real).Floor;
    var n := q * tick;
    Bands(price);
    NextMultiples(price, tick);
    MultipleOf(q, tick);
    MultiplesOrdered(BandStart(price), tick, q);
    assert BandStart(price) <= n;
    SameBand(price, n);
    forall m | OnTick(m) && m as real <= price
      ensures m <= n
    {
      if BandStart(price) <= m {
        SameBand(price, m);
        MultiplesOrdered(m, tick, q);
      }
    }
  }

  /** A sell price is rounded to the least valid price at or above it, also across
      band edges; there always is one. */
  lemma SellIsLeast(price: real)
    requires price > 0.0
    ensures Normalize(price, Up).Done?
    ensures var n := Normalize(price, Up).value;
            OnTick(n) && price <= n as real && forall m :: OnTick(m) && price <= m as real ==> n <= m
  {
    var tick := TickSize(price);
    var u := Ceiling(price / tick as real);
    var n := u * tick;
    Bands(price);
    NextMultiples(price, tick);
    MultipleOf(u, tick);
    assert n > 0;
    if BandEnd(price).Some? {
      MultiplesOrdered(BandEnd(price).value, tick, u);
      assert n <= BandEnd(price).value;
    }
    if BandEnd(price).None? || n < BandEnd(price).value {
      SameBand(price, n);
    }
    forall m | OnTick(m) && price <= m as real
      ensures n <= m
    {
      if BandEnd(price).None? || m < BandEnd(price).value {
        SameBand(price, m);
        MultiplesOrdered(m, tick, u);
      }
    }
  }

  /** Rounding a valid price leaves it, either way. */
  lemma NormalizeIdempotent(price: real, once: Rounding, again: Rounding)
    requires price > 0.0 && Normalize(price, once).Done?
    ensures var n := Normalize(price, once).value; n > 0 && IsValid(n as real) && Normalize(n as real, again) == Done(n)
  {
    BuyIsGreatest(price);
    SellIsLeast(price);
    var n := Normalize(price, once).value;
    BuyIsGreatest(n as real);
    SellIsLeast(n as real);
    WholePrices(n as real);
    assert OnTick(n);
  }

  /** A higher price never rounds to a lower one, and a buy never above a sell. */
  lemma NormalizeMonotone(low: real, high: real, rounding: Rounding)
    requires 0.0 < low <= high && Normalize(low, rounding).Done?
    ensures Normalize(high, rounding).Done? && Normalize(low, rounding).value <= Normalize(high, rounding).value
    ensures Normalize(low, rounding).value <= Normalize(high, Up).value
  {
    BuyIsGreatest(low);
    BuyIsGreatest(high);
    SellIsLeast(low);
    SellIsLeast(high);
  }

  // -------------------------------------------------------------- risk plans

  datatype RiskReward = RiskReward(risk: real, reward: real, ratio: real, distance: real)

  const MINIMUM_RATIO := 1.5
  const MINIMUM_DISTANCE := 0.005

  function ValidateRiskReward(entry: real, take: real, stop: real): Outcome<RiskReward> {
    if entry <= 0.0 || take <= 0.0 || stop <= 0.0 || take <= entry || stop >= entry then Raised(InvalidArgument)
    else
      var risk, reward := entry - stop, take - entry;
      if risk / entry < MINIMUM_DISTANCE || reward / risk < MINIMUM_RATIO then Raised(InvalidArgument)
      else Done(RiskReward(risk, reward, reward / risk, risk / entry))
  }

  datatype RiskPlan = RiskPlan(entry: int, stop: int, take: int)

  /** `_normalize_buy_risk_plan` for a BUY decision at `price`. */
  function NormalizeBuyPlan(price: real): Outcome<RiskPlan> {
    match Normalize(price, Down)
    case Raised(e) => Raised(e)
    case Done(entry) =>
      match Normalize(entry as real * 0.992, Down)
      case Raised(e) => Raised(e)
      case Done(stop) =>
        match Normalize(entry as real + (entry - stop) as real * 1.6, Up)
        case Raised(e) => Raised(e)
        case Done(take) =>
          if ValidateRiskReward(entry as real, take as real, stop as real).Raised? then Raised(InvalidArgument)
          else Done(RiskPlan(entry, stop, take))
  }

  lemma QuotientAtLeast(x: real, y: real, bound: real)
    requires y > 0.0 && x >= bound * y
    ensures x / y >= bound
  {
    assert (bound * y) / y == bound;
    assert (x - bound * y) / y >= 0.0;
  }

  /** The plan fails exactly below two won; otherwise its prices are valid, the
      stop is the highest that risks at least 0.8% of the entry, the take the
      lowest that pays 1.6 times the risk, and the risk exceeds 0.8% by less than
      one tick. */
  lemma RiskPlanHolds(price: real)
    requires price > 0.0
    ensures NormalizeBuyPlan(price).Done? <==> price >= 2.0
    ensures NormalizeBuyPlan(price).Done? ==>
              var p := NormalizeBuyPlan(price).value;
              var risk, reward := (p.entry - p.stop) as real, (p.take - p.entry) as real;
              && OnTick(p.entry) && OnTick(p.stop) && OnTick(p.take) && 0 < p.stop < p.entry < p.take && p.entry as real <= price
              && (forall m :: OnTick(m) && m as real <= price ==> m <= p.entry)
              && (forall m :: OnTick(m) && (p.entry - m) as real >= 0.008 * p.entry as real ==> m <= p.stop)
              && (forall m :: OnTick(m) && (m - p.entry) as real >= 1.6 * risk ==> p.take <= m)
              && reward >= 1.6 * risk
              && 0.008 * p.entry as real <= risk < 0.008 * p.entry as real + TickSize(p.entry as real * 0.992) as real
  {
    hide Normalize, OnTick, TickSize;
    BuyIsGreatest(price);
    SmallPrices();
    if price >= 1.0 {
      var entry := Normalize(price, Down).value;
      BuyIsGreatest(entry as real * 0.992);
      if entry >= 2 {
        PlanOf(entry);
      }
    }
  }

  lemma SmallPrices()
    ensures OnTick(1) && OnTick(2) && forall m :: OnTick(m) ==> m > 0
  {
  }

  lemma PlanOf(entry: int)
    requires entry >= 2 && OnTick(entry)
    ensures var target := entry as real * 0.992;
            && Normalize(target, Down).Done?
            && var stop := Normalize(target, Down).value;
               var risk := (entry - stop) as real;
               && OnTick(stop) && 0 < stop < entry && (forall m :: OnTick(m) && (entry - m) as real >= 0.008 * entry as real ==> m <= stop)
               && 0.008 * entry as real <= risk < 0.008 * entry as real + TickSize(target) as real
               && var aim := entry as real + risk * 1.6;
                  Normalize(aim, Up).Done?
                  && var take := Normalize(aim, Up).value;
                     OnTick(take) && entry < take && (take - entry) as real >= 1.6 * risk
                     && (forall m :: OnTick(m) && (m - entry) as real >= 1.6 * risk ==> take <= m)
                     && ValidateRiskReward(entry as real, take as real, stop as real).Done?
  {
    hide OnTick, TickSize;
    var target := entry as real * 0.992;
    BuyIsGreatest(target);
    StopIsNear(target);
    SmallPrices();
    var stop := Normalize(target, Down).value;
    var aim := entry as real + (entry - stop) as real * 1.6;
    SellIsLeast(aim);
    var take := Normalize(aim, Up).value;
    QuotientAtLeast((entry - stop) as real, entry as real, MINIMUM_DISTANCE);
    QuotientAtLeast((take - entry) as real, (entry - stop) as real, MINIMUM_RATIO);
  }

  lemma StopIsNear(target: real)
    requires target >= 1.0 && Normalize(target, Down).Done?
    ensures Normalize(target, Down).value as real > target - TickSize(target) as real
  {
    hide TickSize;
    Bands(target);
    NextMultiples(target, TickSize(target));
  }

  /** An approved entry's prices pass the same rounding again unchanged. */
  lemma PlanSurvivesApproval(price: real)
    requires price > 0.0 && NormalizeBuyPlan(price).Done?
    ensures var p := NormalizeBuyPlan(price).value;
            && p.entry > 0 && p.stop > 0 && p.take > 0
            && Normalize(p.entry as real, Down) == Done(p.entry) && Normalize(p.stop as real, Down) == Done(p.stop)
            && Normalize(p.take as real, Up) == Done(p.take)
            && NormalizeBuyPlan(p.entry as real) == Done(p)
  {
    hide Normalize, OnTick, TickSize, ValidateRiskReward;
    RiskPlanHolds(price);
    var p := NormalizeBuyPlan(price).value;
    NormalizeIdempotent(price, Down, Down);
    NormalizeIdempotent(p.entry as real * 0.992, Down, Down);
    NormalizeIdempotent(p.entry as real + (p.entry - p.stop) as real * 1.6, Up, Up);
  }

  // ------------------------------------------------------------- by the table

  /** The valid prices, band by band, as the exchange lists them. */
  predicate InTable(n: int) {
    || 1 <= n < 2000
    || (2000 <= n < 5000 && n % 5 == 0)
    || (5000 <= n < 20000 && n % 10 == 0)
    || (20000 <= n < 50000 && n % 50 == 0)
    || (50000 <= n < 200000 && n % 100 == 0)
    || (200000 <= n < 500000 && n % 500 == 0)
    || (500000 <= n && n % 1000 == 0)
  }

  lemma ValidIsInTable(n: int)
    ensures OnTick(n) <==> InTable(n)
    ensures IsValid(n as real) <==> InTable(n)
  {
    assert (n as real).Floor == n;
  }

  /** A buy rounds to the greatest price of the table at or below it, a sell to the
      least at or above it; only a buy below one won has none. */
  lemma RoundsByTable(price: real)
    requires price > 0.0
    ensures Normalize(price, Down).Done? <==> price >= 1.0
    ensures Normalize(price, Down).Done? ==>
              var n := Normalize(price, Down).value;
              InTable(n) && n as real <= price && forall m :: InTable(m) && m as real <= price ==> m <= n
    ensures Normalize(price, Up).Done?
    ensures var n := Normalize(price, Up).value;
            InTable(n) && price <= n as real && forall m :: InTable(m) && price <= m as real ==> n <= m
  {
    hide Normalize, OnTick, InTable, IsValid;
    BuyIsGreatest(price);
    SellIsLeast(price);
    forall m: int
      ensures OnTick(m) <==> InTable(m)
    {
      ValidIsInTable(m);
    }
  }
}
