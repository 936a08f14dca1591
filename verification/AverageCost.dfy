/** One symbol's holding under average-cost accounting: the reference that the
    paper report, the paper ledger and the live positions are compared with. */
module AverageCost {

  datatype Inventory = Inventory(quantity: int, cost: real) {
    function Average(): real {
      if quantity == 0 then 0.0 else cost / quantity as real
    }
  }

  const EMPTY := Inventory(0, 0.0)

  function Bought(i: Inventory, quantity: int, price: real): Inventory {
    Inventory(i.quantity + quantity, i.cost + quantity as real * price)
  }

  function Sold(i: Inventory, quantity: int): Inventory
    requires quantity <= i.quantity
  {
    Inventory(i.quantity - quantity, i.cost - i.Average() * quantity as real)
  }

  /** Selling never moves the average cost, and selling everything leaves no cost behind. */
  lemma SoldKeepsAverage(i: Inventory, quantity: nat)
    requires quantity <= i.quantity
    ensures quantity < i.quantity ==> Sold(i, quantity).Average() == i.Average()
    ensures quantity == i.quantity > 0 ==> Sold(i, quantity) == EMPTY
  {
    if 0 < i.quantity {
      var q, n, a := i.quantity as real, quantity as real, i.Average();
      assert i.cost == a * q;
      assert i.cost - a * n == a * (q - n);
      if quantity < i.quantity {
        assert (a * (q - n)) / (q - n) == a;
      }
    }
  }

  /** A purchase leaves the mean of the purchase prices in place of the average
      cost exactly when nothing has been sold since the position was opened, or
      the new price happens to equal the average. `bought` shares were bought
      since opening at mean price `e`, of which `q` are left. */
  lemma AverageIsPurchaseMean(q: nat, bought: nat, e: real, n: nat, price: real)
    requires 0 < q <= bought && 0 < n
    ensures Bought(Inventory(q, e * q as real), n, price).Average()
            == (e * bought as real + price * n as real) / (bought + n) as real
            <==> q == bought || price == e
  {
    var rq, rb, rn := q as real, bought as real, n as real;
    assert (q + n) as real == rq + rn && (bought + n) as real == rb + rn;
    var gain := Gain(e, n as real, price);
    MeanShift(e, rq, rn, price);
    MeanShift(e, rb, rn, price);
    assert Bought(Inventory(q, e * q as real), n, price).Average() == e + gain / (rq + rn);
    assert (e * bought as real + price * n as real) / (bought + n) as real == e + gain / (rb + rn);
    if price == e {
      assert gain / (rq + rn) == 0.0 == gain / (rb + rn);
    } else {
      QuotientsDiffer(gain, rq + rn, rb + rn);
    }
  }

  function Gain(e: real, n: real, price: real): (g: real)
    ensures n > 0.0 ==> (g == 0.0 <==> price == e)
  {
    n * (price - e)
  }

  /** Averaging in `n` shares at `price` moves a mean of `e` over `q` shares by
      the new shares' part of the difference. */
  lemma MeanShift(e: real, q: real, n: real, price: real)
    requires q > 0.0 && n > 0.0
    ensures (e * q + n * price) / (q + n) == e + Gain(e, n, price) / (q + n)
    ensures (e * q + price * n) / (q + n) == e + Gain(e, n, price) / (q + n)
  {
    var all := q + n;
    assert e * q + n * price == e * all + Gain(e, n, price);
    assert (e * all) / all == e;
    assert price * n == n * price;
  }

  lemma QuotientsDiffer(x: real, a: real, b: real)
    requires x != 0.0 && a > 0.0 && b > 0.0
    ensures x / a == x / b <==> a == b
  {
    if x / a == x / b {
      assert x == (x / a) * a && x == (x / b) * b;
      assert (x / a) * (a - b) == 0.0;
      assert x / a != 0.0;
    }
  }
}
