/**
  First-in-first-out lots: what a sell takes from the front of a holding, at what
  cost, and what is left. (src/stock_agent/account/ledger.py, `_apply_sell`.)
 */
module Fifo {
  import opened Common

  datatype Lot = Lot(acquired: Date, quantity: real, cost: real)

  function Quantity(lots: seq<Lot>): (q: real) {
    if lots == [] then 0.0 else lots[0].quantity + Quantity(lots[1..])
  }

  function Cost(lots: seq<Lot>): (c: real) {
    if lots == [] then 0.0 else lots[0].cost + Cost(lots[1..])
  }

  predicate Positive(lots: seq<Lot>) {
    forall i :: 0 <= i < |lots| ==> lots[i].quantity > 0.0 && lots[i].cost > 0.0
  }

  /** The cost share of `take` out of one lot. */
  function Share(lot: Lot, take: real): real
    requires lot.quantity > 0.0
  {
    lot.cost * take / lot.quantity
  }

  function Split(lot: Lot, take: real): Lot
    requires lot.quantity > 0.0
  {
    Lot(lot.acquired, lot.quantity - take, lot.cost - Share(lot, take))
  }

  /** The lots left after `q` is taken from the front. */
  function Consume(lots: seq<Lot>, q: real): (rest: seq<Lot>)
    requires Positive(lots)
    decreases |lots|
  {
    if q <= 0.0 || lots == [] then lots
    else if lots[0].quantity <= q then Consume(lots[1..], q - lots[0].quantity)
    else [Split(lots[0], q)] + lots[1..]
  }

  /** The cost basis that leaves with the first `q`. */
  function ConsumedCost(lots: seq<Lot>, q: real): (c: real)
    requires Positive(lots)
    decreases |lots|
  {
    if q <= 0.0 || lots == [] then 0.0
    else if lots[0].quantity <= q then lots[0].cost + ConsumedCost(lots[1..], q - lots[0].quantity)
    else Share(lots[0], q)
  }

  /** The pieces of lots that make up the first `q`. */
  function Taken(lots: seq<Lot>, q: real): (pieces: seq<Lot>)
    requires Positive(lots)
    decreases |lots|
  {
    if q <= 0.0 || lots == [] then []
    else if lots[0].quantity <= q then [lots[0]] + Taken(lots[1..], q - lots[0].quantity)
    else [Lot(lots[0].acquired, q, Share(lots[0], q))]
  }

  lemma {:induction false} SplitStaysPositive(lot: Lot, take: real)
    requires lot.quantity > 0.0 && lot.cost > 0.0 && 0.0 < take < lot.quantity
    ensures Split(lot, take).quantity > 0.0 && Split(lot, take).cost > 0.0
    ensures Share(lot, take) > 0.0
  {
    assert lot.cost * take > 0.0;
    assert lot.cost * take < lot.cost * lot.quantity;
    var share := Share(lot, take);
    assert share * lot.quantity == lot.cost * take;
    assert (lot.cost - share) * lot.quantity > 0.0;
  }

  /** Splitting a lot twice is splitting it once by the sum, cost basis included. */
  lemma {:induction false} SplitTwice(lot: Lot, a: real, b: real)
    requires lot.quantity > 0.0 && a > 0.0 && b > 0.0 && a + b < lot.quantity
    ensures Split(Split(lot, a), b) == Split(lot, a + b)
  {
    var q, c := lot.quantity, lot.cost;
    var unit := c / q;
    assert c == unit * q;
    assert Share(lot, a) == unit * a by { assert c * a == (unit * a) * q; }
    assert Share(lot, a + b) == unit * (a + b) by { assert c * (a + b) == (unit * (a + b)) * q; }
    var half := Split(lot, a);
    assert half.cost == unit * half.quantity;
    assert Share(half, b) == unit * b by { assert half.cost * b == (unit * b) * half.quantity; }
  }

  lemma {:induction false} QuantityNonnegative(lots: seq<Lot>)
    requires Positive(lots)
    ensures Quantity(lots) >= 0.0
    ensures lots != [] ==> Quantity(lots) > 0.0
    ensures Cost(lots) >= 0.0
    ensures lots != [] ==> Cost(lots) > 0.0
  {
    if lots == [] {
    } else {
      QuantityNonnegative(lots[1..]);
    }
  }

  /** Nothing is lost: quantity and cost basis split exactly, and lots stay positive. */
  lemma {:induction false} ConsumeConserves(lots: seq<Lot>, q: real)
    requires Positive(lots) && 0.0 <= q <= Quantity(lots)
    ensures Positive(Consume(lots, q))
    ensures Quantity(Consume(lots, q)) == Quantity(lots) - q
    ensures Cost(Consume(lots, q)) + ConsumedCost(lots, q) == Cost(lots)
    ensures ConsumedCost(lots, q) >= 0.0
    decreases |lots|
  {
    if q <= 0.0 || lots == [] {
    } else if lots[0].quantity <= q {
      ConsumeConserves(lots[1..], q - lots[0].quantity);
    } else {
      SplitStaysPositive(lots[0], q);
      assert ([Split(lots[0], q)] + lots[1..])[1..] == lots[1..];
    }
  }

  lemma {:induction false} QuantityConcat(a: seq<Lot>, b: seq<Lot>)
    ensures Quantity(a + b) == Quantity(a) + Quantity(b)
    ensures Cost(a + b) == Cost(a) + Cost(b)
  {
    if a == [] {
      assert a + b == b;
    } else {
      assert (a + b)[1..] == a[1..] + b;
      QuantityConcat(a[1..], b);
    }
  }

  /** Selling everything leaves no lot behind. */
  lemma {:induction false} ConsumeAll(lots: seq<Lot>, q: real)
    requires Positive(lots) && q == Quantity(lots)
    ensures Consume(lots, q) == []
    decreases |lots|
  {
    QuantityNonnegative(lots);
    if lots == [] {
    } else {
      QuantityNonnegative(lots[1..]);
      ConsumeAll(lots[1..], q - lots[0].quantity);
    }
  }

  /** A lot bought later does not change what an earlier quantity consumes. */
  lemma {:induction false} ConsumeBeforeAppend(lots: seq<Lot>, x: Lot, q: real)
    requires Positive(lots) && Positive([x]) && 0.0 <= q <= Quantity(lots)
    ensures Consume(lots + [x], q) == Consume(lots, q) + [x]
    decreases |lots|
  {
    if lots == [] {
      assert lots + [x] == [x];
    } else if q > 0.0 {
      assert (lots + [x])[1..] == lots[1..] + [x];
      if lots[0].quantity <= q {
        ConsumeBeforeAppend(lots[1..], x, q - lots[0].quantity);
      }
    }
  }

  /** Two sells in a row consume what one sell of the sum consumes. */
  lemma {:induction false} ConsumeTwice(lots: seq<Lot>, a: real, b: real)
    requires Positive(lots) && a >= 0.0 && b >= 0.0 && a + b <= Quantity(lots)
    ensures Positive(Consume(lots, a))
    ensures Consume(Consume(lots, a), b) == Consume(lots, a + b)
    decreases |lots|
  {
    ConsumeConserves(lots, a);
    if lots == [] || a == 0.0 || b == 0.0 {
    } else if lots[0].quantity <= a {
      ConsumeTwice(lots[1..], a - lots[0].quantity, b);
      assert a + b - lots[0].quantity == (a - lots[0].quantity) + b;
    } else {
      var half := Split(lots[0], a);
      var rest := Consume(lots, a);
      assert rest == [half] + lots[1..] && rest[1..] == lots[1..];
      if a + b < lots[0].quantity {
        SplitTwice(lots[0], a, b);
      } else {
        assert b - half.quantity == a + b - lots[0].quantity;
      }
    }
  }

  /** The pieces taken weigh exactly what was asked, at exactly the allocated cost. */
  lemma {:induction false} TakenAddsUp(lots: seq<Lot>, q: real)
    requires Positive(lots) && 0.0 <= q <= Quantity(lots)
    ensures Quantity(Taken(lots, q)) == q
    ensures Cost(Taken(lots, q)) == ConsumedCost(lots, q)
    decreases |lots|
  {
    if q <= 0.0 || lots == [] {
    } else if lots[0].quantity <= q {
      TakenAddsUp(lots[1..], q - lots[0].quantity);
      assert ([lots[0]] + Taken(lots[1..], q - lots[0].quantity))[1..] == Taken(lots[1..], q - lots[0].quantity);
    } else {
      var piece := Lot(lots[0].acquired, q, Share(lots[0], q));
      assert [piece][1..] == [];
      assert Quantity([piece]) == q + Quantity([]);
    }
  }
}
