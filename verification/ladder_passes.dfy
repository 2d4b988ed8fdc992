/** How many passes the loop over the leftover takes, for the leftovers that budgets really leave. */
module LadderPasses {
  import opened Arithmetic
  import opened Market
  import opened Ladder
  import opened LadderTheorems
  import opened LadderBounds
  import opened LadderExact

  // ---------- Remainders ----------

  lemma RemainderIs(a: int, p: nat, q: int, r: nat)
    requires 0 < p && a == q * p + r && r < p
    ensures a % p == r
  {
    QuotientIsGreatest(a, p, q);
    QuotientIsGreatest(a, p, q + 1);
    assert (q + 1) * p == q * p + p;
    assert a / p == q;
  }

  lemma RemainderRepeats(multiple: nat, y: nat, p: nat)
    requires 0 < p && multiple % p == 0
    ensures (multiple + y) % p == y % p
  {
    var a, b := multiple / p, y / p;
    assert multiple == a * p && y == b * p + y % p;
    assert (a + b) * p == a * p + b * p;
    RemainderIs(multiple + y, p, a + b, y % p);
  }

  lemma RemainderBefore(multiple: nat, p: nat)
    requires 0 < p && 0 < multiple && multiple % p == 0
    ensures (multiple - 1) % p == p - 1
  {
    var a := multiple / p;
    assert multiple == a * p;
    assert (a - 1) * p == a * p - p;
    RemainderIs(multiple - 1, p, a - 1, p - 1);
  }

  lemma RemainderSteps(y: nat, p: nat)
    requires 0 < p
    ensures (y + 1) % p <= y % p + 1
  {
    var b := y / p;
    assert y == b * p + y % p;
    if y % p + 1 < p {
      RemainderIs(y + 1, p, b, y % p + 1);
    }
  }

  ghost function Product(prices: seq<nat>): (m: nat)
    requires Positive(prices)
    ensures 0 < m
  {
    if prices == [] then 1
    else
      var n := |prices| - 1;
      MulKeepsOrder(1, prices[n], Product(prices[..n]));
      Product(prices[..n]) * prices[n]
  }

  lemma ProductOfMultiple(a: nat, b: nat, p: nat)
    requires 0 < p && a % p == 0
    ensures (a * b) % p == 0
  {
    assert a == a / p * p;
    assert a * b == (a / p * b) * p;
    MultipleHasNoRemainder(a / p * b, p);
  }

  lemma {:induction false} EachDividesProduct(prices: seq<nat>, i: nat)
    requires Positive(prices) && i < |prices|
    ensures Product(prices) % prices[i] == 0
  {
    var n := |prices| - 1;
    if i < n {
      EachDividesProduct(prices[..n], i);
      ProductOfMultiple(Product(prices[..n]), prices[n], prices[i]);
    } else {
      MultipleHasNoRemainder(Product(prices[..n]), prices[n]);
    }
  }

  ghost function PriceSum(prices: seq<nat>): nat {
    if prices == [] then 0 else PriceSum(prices[..|prices| - 1]) + prices[|prices| - 1]
  }

  ghost predicate DividedByAll(prices: seq<nat>, multiple: nat)
    requires Positive(prices)
  {
    forall i | 0 <= i < |prices| :: multiple % prices[i] == 0
  }

  /** Remainders come round again after a common multiple, are largest just before it, and grow by at most one each. */
  lemma {:induction false} RemaindersCycle(prices: seq<nat>, multiple: nat, y: nat)
    requires Positive(prices) && 0 < multiple && DividedByAll(prices, multiple)
    ensures Remainders(prices, multiple + y) == Remainders(prices, y)
    ensures Remainders(prices, multiple - 1) + |prices| == PriceSum(prices)
    ensures Remainders(prices, y + 1) <= Remainders(prices, y) + |prices|
    ensures Remainders(prices, 0) == 0
  {
    if prices != [] {
      var n := |prices| - 1;
      assert forall i | 0 <= i < n :: prices[..n][i] == prices[i];
      RemaindersCycle(prices[..n], multiple, y);
      RemainderRepeats(multiple, y, prices[n]);
      RemainderBefore(multiple, prices[n]);
      RemainderSteps(y, prices[n]);
    }
  }

  /** Rising by at most n at a time, the remainders pass within n of every target below their largest value. */
  lemma {:induction false} RemaindersComeClose(prices: seq<nat>, low: nat, high: nat, target: nat) returns (y: nat)
    requires Positive(prices) && low <= high
    requires Remainders(prices, low) <= target < Remainders(prices, high) + |prices|
    requires target < Remainders(prices, high) || low == high
    ensures Remainders(prices, y) <= target < Remainders(prices, y) + |prices|
    decreases high - low
  {
    if low == high {
      y := low;
    } else {
      var multiple := Product(prices);
      forall i | 0 <= i < |prices|
        ensures multiple % prices[i] == 0
      {
        EachDividesProduct(prices, i);
      }
      RemaindersCycle(prices, multiple, low);
      if target < Remainders(prices, low + 1) {
        y := low;
      } else {
        y := RemaindersComeClose(prices, low + 1, high, target);
      }
    }
  }

  // ---------- Every leftover arises ----------

  lemma PriceSumCovers(prices: seq<nat>)
    requires Positive(prices)
    ensures |prices| <= PriceSum(prices)
  {
    if prices != [] {
      PriceSumCovers(prices[..|prices| - 1]);
    }
  }

  /** Whole grid units whose remainders come within n of the target, as large as asked for. */
  lemma UnitsNear(prices: seq<nat>, target: nat, least: nat) returns (units: nat)
    requires Positive(prices) && prices != [] && target < PriceSum(prices)
    ensures least <= units && Remainders(prices, units) <= target < Remainders(prices, units) + |prices|
  {
    var multiple := Product(prices);
    forall i | 0 <= i < |prices|
      ensures multiple % prices[i] == 0
    {
      EachDividesProduct(prices, i);
    }
    RemaindersCycle(prices, multiple, 0);
    var y: nat;
    if target < Remainders(prices, multiple - 1) {
      y := RemaindersComeClose(prices, 0, multiple - 1, target);
    } else {
      y := multiple - 1;
    }
    var far := least * multiple;
    MulKeepsOrder(1, multiple, least);
    if 0 < least {
      forall i | 0 <= i < |prices|
        ensures far % prices[i] == 0
      {
        ProductOfMultiple(multiple, least, prices[i]);
      }
      MulKeepsOrder(1, least, multiple);
      RemaindersCycle(prices, far, y);
      units := far + y;
    } else {
      units := y;
    }
  }

  lemma ShareBetween(n: nat, whole: nat, extra: nat, scale: nat, per: nat)
    requires 1 <= n <= MAX_RUNGS && 100 <= scale && extra + scale <= n * scale
    requires 2 * (n * per) <= 2 * (n * whole + extra) + n < 2 * (n * per) + 2 * n
    ensures whole <= per < whole + scale
  {
    assert n * (whole + scale) == n * whole + n * scale;
    if per < whole {
      MulKeepsOrder(per + 1, whole, n);
      Distribute(per, n);
    }
    if whole + scale <= per {
      MulKeepsOrder(whole + scale, per, n);
    }
  }

  /** Adding less than one grid unit for each rung to whole shares does not change the whole units of a share. */
  lemma ShareOf(units: nat, extra: nat, n: nat, v: Venue)
    requires 1 <= n <= MAX_RUNGS && extra < n
    ensures DivRound(n * (units * CashScale(v)) + extra * CashScale(v), n) / CashScale(v) == units
  {
    var scale := CashScale(v);
    assert 100 <= scale;
    hide CashScale;
    var whole, more := units * scale, extra * scale;
    var per := DivRound(n * whole + more, n);
    DivRoundBounds(n * whole + more, n);
    MulKeepsOrder(extra, n - 1, scale);
    Distribute(n - 1, scale);
    hide DivRound;
    ShareBetween(n, whole, more, scale, per);
    QuotientIs(per, scale, units);
  }

  lemma QuotientIs(a: nat, b: nat, q: nat)
    requires q * b <= a < q * b + b
    ensures a / b == q
  {
    Distribute(q, b);
    QuotientIsGreatest(a, b, q);
    QuotientIsGreatest(a, b, q + 1);
  }

  /** Every amount below the cost of a full pass is what the even split of some budget leaves, and of ever larger ones. */
  lemma EveryLeftoverArises(prices: seq<nat>, target: nat, least: nat, v: Venue) returns (budget: nat)
    requires Positive(prices) && 1 <= |prices| <= MAX_RUNGS && target < PriceSum(prices)
    ensures least <= budget
    ensures budget - TotalAmount(EvenCash(prices, DivRound(budget, |prices|), v), v) == target * CashScale(v)
  {
    var n, scale := |prices|, CashScale(v);
    assert 1 <= scale;
    var units := UnitsNear(prices, target, least);
    var extra := target - Remainders(prices, units);
    budget := n * (units * scale) + extra * scale;
    ShareOf(units, extra, n, v);
    EvenCashByRemainders(prices, DivRound(budget, n), v);
    MulKeepsOrder(1, scale, units);
    MulKeepsOrder(1, n, units * scale);
    hide DivRound, CashScale, Remainders, EvenCash, TotalAmount;
    assert extra * scale + scale * Remainders(prices, units) == target * scale;
  }

  /** Every budget is the budget of some total, whatever the commission. */
  lemma EveryBudgetArises(s: Spec, budget: nat) returns (total: nat)
    requires s.side == Buy && 0.0 <= s.fee
    ensures Budget(s.(total := total)) == budget && budget <= total
  {
    var cost := WithFee(budget, s.fee);
    FeeKeepsOrder(0, budget, s.fee);
    assert budget as real <= cost by {
      assert 0.0 <= budget as real * s.fee;
    }
    total := -((-cost).Floor);
    assert cost <= total as real < cost + 1.0;
    var t := s.(total := total);
    BudgetIsLargest(t);
    assert WithFee(budget + 1, s.fee) >= cost + 1.0;
    var b := Budget(t);
    hide Budget, WithFee;
    if b < budget {
      FeeKeepsOrder(b + 1, budget, s.fee);
    } else if budget < b {
      FeeKeepsOrder(budget + 1, b, s.fee);
    }
  }

  // ---------- Two passes ----------

  /** How many passes buy something when this request's leftover is spent. */
  ghost function PassesOf(s: Spec, prices: seq<nat>): nat
    requires Valid(s) && prices != [] && Positive(prices)
  {
    BuyingPasses(EvenSplit(s, prices), Leftover(s, prices), s.venue)
  }

  lemma {:induction false} SamePricesSamePass(a: seq<Rung>, b: seq<Rung>, j: nat, cash: int, v: Venue)
    requires SamePrices(a, b) && j <= |a|
    ensures Pass(a, j, cash, v).cash == Pass(b, j, cash, v).cash
    decreases j
  {
    if j != 0 {
      var cost := UnitCost(a[j - 1].price, v);
      if cost > cash {
        SamePricesSamePass(a, b, j - 1, cash, v);
      } else {
        SamePricesSamePass(a[j - 1 := OneMore(a[j - 1])], b[j - 1 := OneMore(b[j - 1])], j - 1, cash - cost, v);
      }
    }
  }

  /** Only the prices decide how many passes it takes. */
  lemma {:induction false} SamePricesSamePasses(a: seq<Rung>, b: seq<Rung>, cash: int, v: Venue)
    requires SamePrices(a, b) && Priced(a) && Priced(b)
    ensures BuyingPasses(a, cash, v) == BuyingPasses(b, cash, v)
    decreases if cash < 0 then 0 else cash
  {
    var x, y := FullPass(a, cash, v), FullPass(b, cash, v);
    SamePricesSamePass(a, b, |a|, cash, v);
    PassKeepsShape(a, |a|, cash, v);
    PassKeepsShape(b, |b|, cash, v);
    if x.cash != cash {
      SamePricesSamePasses(x.rungs, y.rungs, x.cash, v);
    }
  }

  lemma {:induction false} FullPassCosts(prices: seq<nat>, per: int, v: Venue)
    ensures PassCost(EvenCash(prices, per, v), |prices|, v) == PriceSum(prices) * CashScale(v)
  {
    if prices != [] {
      var n := |prices| - 1;
      FullPassCosts(prices[..n], per, v);
      assert EvenCash(prices, per, v)[..n] == EvenCash(prices[..n], per, v);
      PassCostOfPrefix(EvenCash(prices, per, v), n, v);
      assert (PriceSum(prices[..n]) + prices[n]) * CashScale(v) == PriceSum(prices[..n]) * CashScale(v) + prices[n] * CashScale(v);
    }
  }

  /** A large enough budget builds on every venue. */
  /** Enough for every rung to be large enough on its share alone. */
  function LargeBudget(prices: seq<nat>, v: Venue): nat
    requires prices != []
  {
    |prices| * (MinTotal(v) * 100 + UnitCost(prices[0], v))
  }

  lemma LargeBudgetBuilds(s: Spec, powers: Powers)
    requires Valid(s) && s.side == Buy && Spaced(s, powers) && Prices(s, powers) != []
    requires LargeBudget(Prices(s, powers), s.venue) <= Budget(s)
    ensures Build(s, powers).Ok?
  {
    if s.venue.IsUpbit() {
      UpbitBuyBuildsWithMargin(s, powers);
    } else {
      TossBuyBuildsIff(s, powers);
      ShareCoversEqualParts(s, |Prices(s, powers)|, UnitCost(Prices(s, powers)[0], s.venue));
    }
  }

  lemma OtherTotal(s: Spec, powers: Powers, total: int)
    ensures Prices(s.(total := total), powers) == Prices(s, powers)
    ensures Spaced(s.(total := total), powers) <==> Spaced(s, powers)
    ensures Valid(s) && 0 < total ==> Valid(s.(total := total))
  {
    var t := s.(total := total);
    assert t.base == s.base && t.startPct == s.startPct && t.endPct == s.endPct && t.side == s.side;
    assert Bounds(t).0 == Bounds(s).0 && Bounds(t).1 == Bounds(s).1;
    hide Bounds, Geometric, Snap, Outwards;
  }

  /** Some total of a wide request leaves cash that three passes do not spend. */
  lemma SomeTotalTakesThree(s: Spec, powers: Powers) returns (total: int)
    requires Valid(s) && s.side == Buy && Spaced(s, powers) && Prices(s, powers) != []
    requires var prices := Prices(s, powers); 2 * prices[|prices| - 1] < prices[0]
    ensures Build(s.(total := total), powers).Ok? && Valid(s.(total := total))
    ensures 2 < PassesOf(s.(total := total), Prices(s, powers))
  {
    var prices, v := Prices(s, powers), s.venue;
    FirstPrice(s, powers);
    assert 0.0 <= s.fee;
    hide Build, Prices, Spaced, Bounds, Budget, PassesOf, BuyingPasses, PassCost, PriceSum, DivRound, TotalAmount;
    hide LargeBudget, MinTotal, UnitCost, EvenCash, CashScale, StrictlyOutwards, Valid;
    var cash, target := WideLeftover(prices, v);
    var budget := EveryLeftoverArises(prices, target, LargeBudget(prices, v) + 1, v);
    total := EveryBudgetArises(s, budget);
    OtherTotal(s, powers, total);
    var t := s.(total := total);
    assert Prices(t, powers) == prices && t.venue == v;
    LargeBudgetBuilds(t, powers);
    SplitTakes(t, prices, budget, target, cash);
  }

  lemma WideLeftover(prices: seq<nat>, v: Venue) returns (cash: nat, target: nat)
    requires Positive(prices) && StrictlyOutwards(prices, Buy) && prices != [] && 2 * prices[|prices| - 1] < prices[0]
    ensures target < PriceSum(prices) && cash == target * CashScale(v)
    ensures 2 < BuyingPasses(EvenCash(prices, 0, v), cash, v)
  {
    var bare := EvenCash(prices, 0, v);
    assert Priced(bare) && StrictlyFalling(bare);
    hide BuyingPasses, PassCost, PriceSum, UnitCost, CashScale, StrictlyFalling;
    cash := WideRangeNeedsThree(bare, v);
    WideTarget(prices, v, cash);
    target := PriceSum(prices) - prices[0] + 2 * prices[|prices| - 1];
  }

  lemma SplitTakes(t: Spec, prices: seq<nat>, budget: nat, target: nat, cash: nat)
    requires Valid(t) && prices != [] && Positive(prices) && Budget(t) == budget && cash == target * CashScale(t.venue)
    requires budget - TotalAmount(EvenCash(prices, DivRound(budget, |prices|), t.venue), t.venue) == cash
    requires 2 < BuyingPasses(EvenCash(prices, 0, t.venue), cash, t.venue)
    ensures 2 < PassesOf(t, prices)
  {
    assert Leftover(t, prices) == cash;
    hide BuyingPasses, TotalAmount, DivRound, Budget, CashScale;
    SamePricesSamePasses(EvenCash(prices, 0, t.venue), EvenSplit(t, prices), cash, t.venue);
  }

  lemma WideTarget(prices: seq<nat>, v: Venue, cash: nat)
    requires Positive(prices) && prices != []
    requires var bare := EvenCash(prices, 0, v);
      cash == PassCost(bare, |prices|, v) - PassCost(bare, 1, v) + 2 * UnitCost(prices[|prices| - 1], v)
    requires 2 * prices[|prices| - 1] < prices[0]
    ensures var target := PriceSum(prices) - prices[0] + 2 * prices[|prices| - 1];
      0 <= target < PriceSum(prices) && cash == target * CashScale(v)
  {
    var bare, n, scale := EvenCash(prices, 0, v), |prices|, CashScale(v);
    FullPassCosts(prices, 0, v);
    assert PassCost(bare, 1, v) == prices[0] * scale;
    FirstIsInSum(prices);
    assert (PriceSum(prices) - prices[0] + 2 * prices[n - 1]) * scale
        == PriceSum(prices) * scale - prices[0] * scale + 2 * (prices[n - 1] * scale);
  }

  lemma {:induction false} FirstIsInSum(prices: seq<nat>)
    requires prices != []
    ensures prices[0] <= PriceSum(prices)
  {
    if 1 < |prices| {
      FirstIsInSum(prices[..|prices| - 1]);
    }
  }

  /**
    Over all totals of a request for which a ladder is built, the leftover is spent in at most two buying passes exactly
    when the dearest price is at most twice the cheapest.
  */
  lemma TwoPassesSufficeIff(s: Spec, powers: Powers)
    requires Valid(s) && s.side == Buy && Spaced(s, powers) && Prices(s, powers) != []
    ensures var prices := Prices(s, powers);
      (forall total: int | Build(s.(total := total), powers).Ok? && Valid(s.(total := total)) ::
        PassesOf(s.(total := total), prices) <= 2)
      <==> prices[0] <= 2 * prices[|prices| - 1]
  {
    var prices := Prices(s, powers);
    hide Build, Prices, Spaced, Valid, PassesOf;
    if prices[0] <= 2 * prices[|prices| - 1] {
      forall total: int | Build(s.(total := total), powers).Ok? && Valid(s.(total := total))
        ensures PassesOf(s.(total := total), prices) <= 2
      {
        NarrowTakesTwo(s, powers, s.(total := total));
      }
    } else {
      var total := SomeTotalTakesThree(s, powers);
    }
  }

  lemma NarrowTakesTwo(s: Spec, powers: Powers, t: Spec)
    requires Valid(s) && s.side == Buy && Spaced(s, powers) && Prices(s, powers) != []
    requires Valid(t) && t.side == Buy && t.venue == s.venue
    requires var prices := Prices(s, powers); prices[0] <= 2 * prices[|prices| - 1]
    ensures PassesOf(t, Prices(s, powers)) <= 2
  {
    var prices := Prices(s, powers);
    FirstPrice(s, powers);
    hide Prices, Spaced, Bounds, Budget, BuyingPasses, PassCost, Share, TotalAmount, Valid;
    EvenSplitOfBudget(t, prices);
    NarrowRangeSettlesInTwoPasses(EvenSplit(t, prices), Leftover(t, prices), t.venue);
  }

  // ---------- No bound in general ----------

  /** With too little for the dearer rung, a pass buys one unit of the cheaper, if there is enough for that. */
  lemma PassBuysFar(near: Rung, far: Rung, cash: nat, v: Venue)
    requires cash < UnitCost(near.price, v)
    ensures FullPass([near, far], cash, v) ==
      if cash < UnitCost(far.price, v) then Spread([near, far], cash) else Spread([near, OneMore(far)], cash - UnitCost(far.price, v))
  {
    var rungs, after := [near, far], [near, OneMore(far)];
    assert rungs[1 := OneMore(far)] == after;
    hide UnitCost;
    assert Pass(rungs, 1, cash, v) == Spread(rungs, cash);
    if UnitCost(far.price, v) <= cash {
      assert Pass(after, 1, cash - UnitCost(far.price, v), v) == Spread(after, cash - UnitCost(far.price, v));
    }
  }

  /** With cash for m units of the cheaper rung, and less than the dearer rung costs, each pass buys one unit. */
  lemma {:induction false} PassesBuyOneEach(near: Rung, far: Rung, m: nat, v: Venue)
    requires 0 < far.price && 0 < near.price && m * UnitCost(far.price, v) < UnitCost(near.price, v)
    ensures BuyingPasses([near, far], m * UnitCost(far.price, v), v) == m
    decreases m
  {
    var unit := UnitCost(far.price, v);
    assert 0 < unit;
    hide UnitCost, FullPass;
    PassBuysFar(near, far, m * unit, v);
    if m > 0 {
      Distribute(m - 1, unit);
      MulKeepsOrder(1, m, unit);
      PassesBuyOneEach(near, OneMore(far), m - 1, v);
    }
  }

  /** Buy over k won down to one won, with cash for m won more than even shares can spend. */
  function WideRequest(k: nat, m: nat): Spec
    requires 0 < k
  {
    Spec(Upbit, "KRW-A", Buy, (k * ONE) as real, 0.0, 1.0 - 1.0 / (k as real), 2, 2 * ((k * 500_000 + m) * 10_000_000_000), 0.0)
  }

  lemma Inverse(x: real)
    requires 1.0 < x
    ensures 0.0 < 1.0 / x < 1.0 && (1.0 / x) * x == 1.0
  {
  }

  lemma WideBounds(k: nat, m: nat)
    requires 1_000_000 <= k
    ensures Valid(WideRequest(k, m))
    ensures Bounds(WideRequest(k, m)) == ((k * ONE) as real, ONE as real)
  {
    var s := WideRequest(k, m);
    var part := 1.0 / (k as real);
    Inverse(k as real);
    assert s.base * (1.0 - s.startPct) == s.base;
    assert 1.0 - s.endPct == part;
    assert s.base == (k as real) * 100_000_000.0;
    assert s.base * part == (part * (k as real)) * 100_000_000.0;
    WideSymbol();
  }

  lemma WideSymbol()
    ensures ValidSymbol(Upbit, "KRW-A")
  {
    assert "KRW" + "-" == "KRW-";
    assert "KRW-" <= "KRW-A";
  }

  lemma WideTicks(k: nat)
    requires 1_000_000 <= k && k % 1_000 == 0
    ensures PriceTick((k * ONE) as real, Upbit, RoundDown) == k * ONE
    ensures PriceTick(ONE as real, Upbit, RoundDown) == ONE
  {
    assert k * ONE == (k / 1_000) * (1_000 * ONE);
    MultipleHasNoRemainder(k / 1_000, 1_000 * ONE);
    assert StepFor(KRW_TICKS, (k * ONE) as real) == 1_000 * ONE;
    GridIsFixedPoints(k * ONE, Upbit, RoundDown);
    assert StepFor(KRW_TICKS.below.below.below.below.below.below.below.below, ONE as real) == CENT;
    assert StepFor(KRW_TICKS.below.below.below.below.below.below, ONE as real) == CENT;
    assert StepFor(KRW_TICKS.below.below.below.below, ONE as real) == CENT;
    assert StepFor(KRW_TICKS.below.below, ONE as real) == CENT;
    assert StepFor(KRW_TICKS, ONE as real) == CENT;
    GridIsFixedPoints(ONE, Upbit, RoundDown);
  }

  lemma WideShare(k: nat, m: nat)
    requires 1_000_000 <= k && Valid(WideRequest(k, m))
    ensures Share(WideRequest(k, m), 2) == (k * 500_000 + m) * 10_000_000_000
  {
    var s, per := WideRequest(k, m), (k * 500_000 + m) * 10_000_000_000;
    assert Budget(s) == 2 * per;
    DivRoundBounds(2 * per, 2);
  }

  lemma WideQuantities(k: nat, m: nat, per: nat)
    requires 1_000_000 <= k && m < k && per == (k * 500_000 + m) * 10_000_000_000
    ensures QuantityFor(per, k * ONE, Upbit) == 500_000
    ensures QuantityFor(per, ONE, Upbit) == k * 500_000 + m
  {
    QuantityForIsGreatest(per, k * ONE, Upbit, 500_000);
    QuantityForIsGreatest(per, k * ONE, Upbit, 500_001);
    QuantityForIsGreatest(per, ONE, Upbit, k * 500_000 + m);
    QuantityForIsGreatest(per, ONE, Upbit, k * 500_000 + m + 1);
  }

  lemma WideSplit(k: nat, m: nat)
    requires 1_000_000 <= k && m < k && Valid(WideRequest(k, m))
    ensures var s, prices := WideRequest(k, m), [k * ONE, ONE];
      && EvenSplit(s, prices) == [Rung(0, k * ONE, 500_000), Rung(1, ONE, k * 500_000 + m)]
      && Leftover(s, prices) == m * UnitCost(ONE, Upbit)
  {
    var s, prices := WideRequest(k, m), [k * ONE, ONE];
    WideShare(k, m);
    WideQuantities(k, m, Share(s, 2));
    var near, far := Rung(0, k * ONE, 500_000), Rung(1, ONE, k * 500_000 + m);
    assert EvenSplit(s, prices) == [near, far];
    TwoRungsAmount(near, far, Upbit);
    assert RungAmount(near, Upbit) == k * 5_000_000_000_000_000;
    assert RungAmount(far, Upbit) == (k * 500_000 + m) * 10_000_000_000;
  }

  /**
    Nothing bounds the passes: over a range from k won, k at least a million, down to one won there is for every m below
    k a total whose leftover takes m buying passes, and the ladder is built.
  */
  lemma WideRangeNeedsManyPasses(k: nat, m: nat, powers: Powers)
    requires 1_000_000 <= k && k % 1_000 == 0 && m < k
    ensures var s := WideRequest(k, m);
      && Build(s, powers).Ok? && Valid(s) && Prices(s, powers) == [k * ONE, ONE]
      && PassesOf(s, [k * ONE, ONE]) == m
  {
    var s, prices := WideRequest(k, m), [k * ONE, ONE];
    WideBounds(k, m);
    WideTicks(k);
    TwoRungPrices(s, powers);
    WideSplit(k, m);
    var near, far := Rung(0, k * ONE, 500_000), Rung(1, ONE, k * 500_000 + m);
    hide PriceTick, Bounds, WideRequest, Prices, EvenSplit, Leftover, Build, BuyingPasses, Sized;
    assert m * UnitCost(ONE, Upbit) < UnitCost(k * ONE, Upbit);
    PassesBuyOneEach(near, far, m, Upbit);
    WideBuilds(s, powers, k, m);
  }

  lemma WideBuilds(s: Spec, powers: Powers, k: nat, m: nat)
    requires 1_000_000 <= k && m < k && s == WideRequest(k, m) && Valid(s) && Prices(s, powers) == [k * ONE, ONE]
    requires EvenSplit(s, [k * ONE, ONE]) == [Rung(0, k * ONE, 500_000), Rung(1, ONE, k * 500_000 + m)]
    ensures Build(s, powers).Ok?
  {
    var prices, split := [k * ONE, ONE], EvenSplit(s, [k * ONE, ONE]);
    BuildsIffEveryRungIsValid(s, powers);
    SizedKeepsPrices(s, prices);
    assert Sized(s, prices) == SpendOut(split, Leftover(s, prices), Upbit).rungs;
    hide Build, Prices, Sized, SpendOut, Leftover, EvenSplit, WideRequest;
    forall i | 0 <= i < 2
      ensures OrderSizeValid(Sized(s, prices)[i].quantity, prices[i], Upbit)
    {
      SpendOutNeverShrinks(split, Leftover(s, prices), Upbit, i);
      MulKeepsOrder(split[i].quantity, Sized(s, prices)[i].quantity, prices[i]);
    }
  }
}
