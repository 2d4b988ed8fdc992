/**
  Where a ladder's prices lie: the request says how far from the base it starts and ends, and the exchange says which
  prices it takes. Nothing here speaks of how the prices are computed.
*/
module Pricing {
  import opened Arithmetic
  import opened Wrappers
  import opened Market
  import opened Ladder
  import opened LadderTheorems
  import opened LadderBounds

  /** The exact price asked for at step i: the range's two ends, and between them whatever the spacing multiplies the start by. */
  ghost function Asked(s: Spec, powers: Powers, i: int): real {
    var start := if s.side == Sell then s.base * (1.0 + s.startPct) else s.base * (1.0 - s.startPct);
    var end := if s.side == Sell then s.base * (1.0 + s.endPct) else s.base * (1.0 - s.endPct);
    if i == 0 then start else if i == s.rungs - 1 then end else start * powers(i)
  }

  /** The nearest price the exchange takes that is no worse for the operator: not below on a sell, not above on a buy. */
  ghost predicate Taken(price: nat, asked: real, s: Spec) {
    && OnGrid(price, s.venue)
    && if s.side == Sell
       then asked <= price as real && forall g: nat | OnGrid(g, s.venue) && asked <= g as real :: price <= g
       else price as real <= asked && forall g: nat | OnGrid(g, s.venue) && g as real <= asked :: g <= price
  }

  lemma AskedIsPriced(s: Spec, powers: Powers, i: int)
    requires Valid(s) && 0 <= i < s.rungs
    ensures Geometric(Bounds(s).0, Bounds(s).1, s.rungs, powers)[i] == Asked(s, powers, i)
  {
  }

  lemma SnappedIsTaken(s: Spec, asked: real, price: nat)
    ensures 0 < price && PriceTick(asked, s.venue, s.side.Rounding()) == price <==> 0.0 < asked && Taken(price, asked, s)
  {
    if 0.0 < asked {
      TickUpIsLeast(asked, s.venue);
      TickDownIsGreatest(asked, s.venue);
    }
    hide Fits;
  }

  lemma EndsArePositive(s: Spec, powers: Powers)
    requires Valid(s)
    ensures 0.0 < Asked(s, powers, 0) && 0.0 < Asked(s, powers, s.rungs - 1)
  {
    if s.side == Sell {
      ProductIsPositive(s.base, 1.0 + s.startPct);
      ProductIsPositive(s.base, 1.0 + s.endPct);
    } else {
      ProductIsPositive(s.base, 1.0 - s.startPct);
      ProductIsPositive(s.base, 1.0 - s.endPct);
    }
  }

  /** Every step asks for a positive price, on or between the two ends of the range. */
  lemma StepsAreWithin(s: Spec, powers: Powers, i: int)
    requires Valid(s) && Spaced(s, powers) && 0 <= i < s.rungs
    ensures 0.0 < Asked(s, powers, i)
    ensures if s.side == Sell then Asked(s, powers, 0) <= Asked(s, powers, i) <= Asked(s, powers, s.rungs - 1)
      else Asked(s, powers, s.rungs - 1) <= Asked(s, powers, i) <= Asked(s, powers, 0)
  {
    var raw, n := Geometric(Bounds(s).0, Bounds(s).1, s.rungs, powers), s.rungs;
    AskedIsPriced(s, powers, 0);
    AskedIsPriced(s, powers, i);
    AskedIsPriced(s, powers, n - 1);
    EndsArePositive(s, powers);
    hide Geometric, Bounds, Asked;
    assert 0 < i ==> if s.side == Sell then raw[0] <= raw[i] else raw[0] >= raw[i];
    assert i < n - 1 ==> if s.side == Sell then raw[i] <= raw[n - 1] else raw[i] >= raw[n - 1];
  }

  /** A price is on the ladder exactly when it is what the exchange takes for some step of the request. */
  lemma PricesAreTheStepsTaken(s: Spec, powers: Powers, price: nat)
    requires Valid(s) && Spaced(s, powers)
    ensures price in Prices(s, powers) <==> exists i :: 0 <= i < s.rungs && Taken(price, Asked(s, powers, i), s)
  {
    var raw, mode := Geometric(Bounds(s).0, Bounds(s).1, s.rungs, powers), s.side.Rounding();
    SnapLosesOnlyRepeats(raw, s.venue, mode, price);
    forall i | 0 <= i < s.rungs
      ensures raw[i] == Asked(s, powers, i)
      ensures 0 < price && PriceTick(raw[i], s.venue, mode) == price <==> Taken(price, Asked(s, powers, i), s)
    {
      AskedIsPriced(s, powers, i);
      StepsAreWithin(s, powers, i);
      SnappedIsTaken(s, raw[i], price);
    }
    hide Snap, PriceTick, Asked, Geometric, Bounds, Taken, Spaced;
  }

  /** The exchange takes some price that low. */
  ghost predicate Reaches(s: Spec, asked: real) {
    exists g: nat :: OnGrid(g, s.venue) && g as real <= asked
  }

  /** Where a ladder begins and ends, and that every rung lies between. */
  ghost predicate SpansTheRange(plan: Plan, s: Spec, powers: Powers) {
    && plan.rungs != []
    && plan.start == plan.rungs[0].price && plan.end == plan.rungs[|plan.rungs| - 1].price
    && Taken(plan.start, Asked(s, powers, 0), s)
    && (s.side == Sell || Reaches(s, Asked(s, powers, s.rungs - 1)) ==> Taken(plan.end, Asked(s, powers, s.rungs - 1), s))
    && (forall r | r in plan.rungs ::
          if s.side == Sell then plan.start <= r.price <= plan.end else plan.end <= r.price <= plan.start)
    && RungsAreSteps(plan, s, powers)
  }

  /** Every rung is what the exchange takes for some step, and every step it takes has a rung. */
  ghost predicate RungsAreSteps(plan: Plan, s: Spec, powers: Powers) {
    && (forall r | r in plan.rungs :: exists i :: 0 <= i < s.rungs && Taken(r.price, Asked(s, powers, i), s))
    && (forall i, price: nat | 0 <= i < s.rungs && Taken(price, Asked(s, powers, i), s) ::
          exists r :: r in plan.rungs && r.price == price)
  }

  /** Snapping keeps which of two steps is further out. */
  lemma TakenInOrder(a: nat, b: nat, near: real, far: real, s: Spec)
    requires Taken(a, near, s) && Taken(b, far, s) && (if s.side == Sell then near <= far else far <= near)
    ensures if s.side == Sell then a <= b else b <= a
  {
    hide OnGrid;
  }

  lemma FirstIsTheStart(s: Spec, powers: Powers)
    requires Valid(s) && Spaced(s, powers) && Prices(s, powers) != []
    ensures Taken(Prices(s, powers)[0], Asked(s, powers, 0), s)
  {
    FirstPrice(s, powers);
    AskedIsPriced(s, powers, 0);
    StepsAreWithin(s, powers, 0);
    SnappedIsTaken(s, Asked(s, powers, 0), Prices(s, powers)[0]);
  }

  lemma LastIsTheEnd(s: Spec, powers: Powers)
    requires Valid(s) && Spaced(s, powers) && Prices(s, powers) != []
    requires s.side == Sell || Reaches(s, Asked(s, powers, s.rungs - 1))
    ensures var prices := Prices(s, powers); Taken(prices[|prices| - 1], Asked(s, powers, s.rungs - 1), s)
  {
    var prices, asked := Prices(s, powers), Asked(s, powers, s.rungs - 1);
    var last := prices[|prices| - 1];
    FirstPrice(s, powers);
    StepsAreWithin(s, powers, s.rungs - 1);
    var end := PriceTick(asked, s.venue, s.side.Rounding());
    TickUpIsLeast(asked, s.venue);
    TickDownIsGreatest(asked, s.venue);
    SnappedIsTaken(s, asked, end);
    PricesAreTheStepsTaken(s, powers, end);
    assert last in prices;
    PricesAreTheStepsTaken(s, powers, last);
    hide Prices, PriceTick, Asked, Taken, Valid, Spaced, OnGrid;
    var i :| 0 <= i < s.rungs && Taken(last, Asked(s, powers, i), s);
    StepsAreWithin(s, powers, i);
    TakenInOrder(last, end, Asked(s, powers, i), asked, s);
    var j :| 0 <= j < |prices| && prices[j] == end;
  }

  /** Rungs and prices are the same list, so what is known of the prices is known of the rungs. */
  lemma RungsArePrices(s: Spec, powers: Powers, plan: Plan, price: nat)
    requires Build(s, powers) == Ok(plan)
    ensures (exists r :: r in plan.rungs && r.price == price) <==> price in Prices(s, powers)
  {
    BuildShape(s, powers);
    hide Build, Prices, Sized;
    var prices := Prices(s, powers);
    if price in prices {
      var i :| 0 <= i < |prices| && prices[i] == price;
      assert plan.rungs[i] in plan.rungs;
    }
  }

  lemma RungsLieBetween(s: Spec, powers: Powers, plan: Plan)
    requires Build(s, powers) == Ok(plan) && Spaced(s, powers)
    ensures forall r | r in plan.rungs ::
      if s.side == Sell then plan.start <= r.price <= plan.end else plan.end <= r.price <= plan.start
  {
    BuildShape(s, powers);
    FirstPrice(s, powers);
    hide Build, Prices, Sized, Spaced;
  }

  lemma StepsAreRungs(s: Spec, powers: Powers, plan: Plan)
    requires Build(s, powers) == Ok(plan) && Spaced(s, powers) && Valid(s)
    ensures RungsAreSteps(plan, s, powers)
  {
    hide Build, Prices, Spaced, Valid, Asked, Taken;
    forall r | r in plan.rungs
      ensures exists i :: 0 <= i < s.rungs && Taken(r.price, Asked(s, powers, i), s)
    {
      RungsArePrices(s, powers, plan, r.price);
      PricesAreTheStepsTaken(s, powers, r.price);
    }
    forall i, price: nat | 0 <= i < s.rungs && Taken(price, Asked(s, powers, i), s)
      ensures exists r :: r in plan.rungs && r.price == price
    {
      RungsArePrices(s, powers, plan, price);
      PricesAreTheStepsTaken(s, powers, price);
    }
  }

  /**
    A built ladder starts at the price the exchange takes for the start of the range, ends at the one for its end, where
    there is one, and has a rung wherever a step of the request is taken, and nowhere else.
  */
  lemma BuiltPlanSpansTheRange(s: Spec, powers: Powers)
    requires Build(s, powers).Ok? && Spaced(s, powers)
    ensures SpansTheRange(Build(s, powers).value, s, powers)
  {
    var plan := Build(s, powers).value;
    PlanEnds(s, powers, plan);
    hide Build, Prices, Spaced, Valid, Asked, Taken, Reaches, RungsAreSteps;
    FirstIsTheStart(s, powers);
    RungsLieBetween(s, powers, plan);
    if s.side == Sell || Reaches(s, Asked(s, powers, s.rungs - 1)) {
      LastIsTheEnd(s, powers);
    }
    StepsAreRungs(s, powers, plan);
  }

  lemma PlanEnds(s: Spec, powers: Powers, plan: Plan)
    requires Build(s, powers) == Ok(plan)
    ensures Valid(s) && plan.rungs != [] && Prices(s, powers) != []
    ensures plan.start == plan.rungs[0].price == Prices(s, powers)[0]
    ensures plan.end == plan.rungs[|plan.rungs| - 1].price == Prices(s, powers)[|Prices(s, powers)| - 1]
  {
    BuildShape(s, powers);
    hide Build, Prices, Sized, Valid;
  }

  lemma Scaling(base: real, a: real, b: real)
    requires 0.0 < base
    ensures base * a < base * b <==> a < b
  {
    if a < b {
      ProductIsPositive(base, b - a);
    } else {
      assert 0.0 <= base * (a - b) by {
        if b < a {
          ProductIsPositive(base, a - b);
        }
      }
    }
  }

  /** The range runs away from a positive base price and stays positive. */
  ghost predicate RangeIsProper(s: Spec) {
    && 0.0 < s.base
    && if s.side == Sell then s.base <= s.base * (1.0 + s.startPct) < s.base * (1.0 + s.endPct)
       else 0.0 < s.base * (1.0 - s.endPct) < s.base * (1.0 - s.startPct) <= s.base
  }

  /**
    A request is refused as invalid exactly when its symbol, count, total or fee is not acceptable, or its range is not
    proper.
  */
  lemma InvalidIff(s: Spec, powers: Powers)
    ensures Build(s, powers) != Err(Invalid) <==>
      && ValidSymbol(s.venue, s.symbol) && 1 <= s.rungs <= 50 && 0 < s.total && 0.0 <= s.fee && RangeIsProper(s)
  {
    if 0.0 < s.base {
      Scaling(s.base, 1.0 + s.startPct, 1.0 + s.endPct);
      Scaling(s.base, 1.0 + s.startPct, 1.0);
      Scaling(s.base, 1.0 - s.endPct, 1.0 - s.startPct);
      Scaling(s.base, 0.0, 1.0 - s.endPct);
      Scaling(s.base, 1.0, 1.0 - s.startPct);
    }
    hide Prices, Size;
  }

  lemma NoneTakenIff(s: Spec, powers: Powers)
    requires Valid(s) && Spaced(s, powers)
    ensures Prices(s, powers) == [] <==> forall i, price: nat | 0 <= i < s.rungs :: !Taken(price, Asked(s, powers, i), s)
  {
    var prices := Prices(s, powers);
    hide Asked, Taken, Prices, Spaced, Valid;
    if i, price: nat :| 0 <= i < s.rungs && Taken(price, Asked(s, powers, i), s) {
      PricesAreTheStepsTaken(s, powers, price);
      assert price in prices;
    }
    if prices != [] {
      PricesAreTheStepsTaken(s, powers, prices[0]);
      var i :| 0 <= i < s.rungs && Taken(prices[0], Asked(s, powers, i), s);
    }
  }

  /** A proper request is refused for want of prices exactly when the exchange takes none of its steps. */
  lemma NoPricesIff(s: Spec, powers: Powers)
    requires Spaced(s, powers)
    ensures Build(s, powers) == Err(NoPrices) <==>
      Build(s, powers) != Err(Invalid) && forall i, price: nat | 0 <= i < s.rungs :: !Taken(price, Asked(s, powers, i), s)
  {
    if Valid(s) {
      NoneTakenIff(s, powers);
    }
    hide Asked, Taken, Prices, Spaced, Valid, Sized, MaxRungs, FirstTooSmall;
  }

  /** A request refused for a rung that is too small names the first such rung, and the count to reduce to. */
  lemma TooSmallNames(s: Spec, powers: Powers, index: nat, count: int)
    requires Build(s, powers) == Err(TooSmall(index, count))
    ensures var prices := Prices(s, powers);
      && Valid(s) && count == MaxRungs(s) && index < |prices|
      && var rungs := Sized(s, prices);
      && !OrderSizeValid(rungs[index].quantity, prices[index], s.venue)
      && forall i | 0 <= i < index :: OrderSizeValid(rungs[i].quantity, prices[i], s.venue)
  {
    SizedKeepsPrices(s, Prices(s, powers));
    hide Prices, Sized, MaxRungs, Valid, FirstTooSmall;
  }
}
