/** What every ladder that Build accepts is guaranteed to be. */
module LadderTheorems {
  import opened Arithmetic
  import opened Market
  import opened Ladder

  // ---------- Snapping a spread of prices ----------

  /** Prices running away from the base price: upwards on a sell, downwards on a buy. */
  ghost predicate Outwards(raw: seq<real>, side: Side) {
    forall i, j | 0 <= i < j < |raw| :: if side == Sell then raw[i] <= raw[j] else raw[i] >= raw[j]
  }

  ghost predicate StrictlyOutwards(prices: seq<nat>, side: Side) {
    forall i, j | 0 <= i < j < |prices| :: if side == Sell then prices[i] < prices[j] else prices[i] > prices[j]
  }

  /** The contract on floating point: the interior prices keep the order of the exact endpoints. */
  ghost predicate Spaced(s: Spec, powers: Powers) {
    Outwards(Geometric(Bounds(s).0, Bounds(s).1, s.rungs, powers), s.side)
  }

  lemma {:induction false} CompactLosesOnlyRepeats(ticks: seq<nat>, tick: nat)
    ensures tick in Compact(ticks) <==> 0 < tick && tick in ticks
  {
    if ticks != [] {
      var n := |ticks| - 1;
      CompactLosesOnlyRepeats(ticks[..n], tick);
      assert ticks == ticks[..n] + [ticks[n]];
    }
  }

  ghost predicate WeaklyOutwards(ticks: seq<nat>, side: Side) {
    forall i, j | 0 <= i < j < |ticks| :: if side == Sell then ticks[i] <= ticks[j] else ticks[i] >= ticks[j]
  }

  lemma {:induction false} CompactIsStrict(ticks: seq<nat>, side: Side)
    requires WeaklyOutwards(ticks, side)
    ensures StrictlyOutwards(Compact(ticks), side)
  {
    if ticks != [] {
      var n := |ticks| - 1;
      CompactIsStrict(ticks[..n], side);
      var kept := Compact(ticks[..n]);
      if kept != [] {
        var edge := kept[|kept| - 1];
        assert edge in kept;
        CompactLosesOnlyRepeats(ticks[..n], edge);
        var i :| 0 <= i < n && ticks[..n][i] == edge;
        assert ticks[i] == edge;
      }
    }
  }

  /** Snapping loses repeats and prices that round to zero, and nothing else. */
  lemma SnapLosesOnlyRepeats(raw: seq<real>, v: Venue, mode: Rounding, tick: nat)
    ensures tick in Snap(raw, v, mode) <==> 0 < tick && exists i :: 0 <= i < |raw| && PriceTick(raw[i], v, mode) == tick
  {
    var ticks := Ticked(raw, v, mode);
    CompactLosesOnlyRepeats(ticks, tick);
    if i :| 0 <= i < |raw| && PriceTick(raw[i], v, mode) == tick {
      assert ticks[i] == tick;
    }
  }

  /** Snapped rungs move strictly away from the base price, however coarse the grid. */
  lemma SnapIsStrict(raw: seq<real>, v: Venue, side: Side)
    requires Outwards(raw, side)
    ensures StrictlyOutwards(Snap(raw, v, side.Rounding()), side)
  {
    var mode := side.Rounding();
    var ticks := Ticked(raw, v, mode);
    forall i, j | 0 <= i < j < |ticks|
      ensures if side == Sell then ticks[i] <= ticks[j] else ticks[i] >= ticks[j]
    {
      if side == Sell {
        TickIsMonotone(raw[i], raw[j], v, mode);
      } else {
        TickIsMonotone(raw[j], raw[i], v, mode);
      }
    }
    CompactIsStrict(ticks, side);
  }

  lemma {:induction false} CompactKeepsFirst(ticks: seq<nat>)
    requires ticks != [] && 0 < ticks[0]
    ensures Compact(ticks) != [] && Compact(ticks)[0] == ticks[0]
  {
    if |ticks| > 1 {
      CompactKeepsFirst(ticks[..|ticks| - 1]);
    } else {
      assert ticks[..0] == [];
    }
  }

  lemma SnapKeepsFirst(raw: seq<real>, v: Venue, mode: Rounding)
    requires raw != [] && 0 < PriceTick(raw[0], v, mode)
    ensures Snap(raw, v, mode) != [] && Snap(raw, v, mode)[0] == PriceTick(raw[0], v, mode)
  {
    CompactKeepsFirst(Ticked(raw, v, mode));
  }

  /** The first rung sits on the snapped start of the range, which is the price MaxRungs reasons about. */
  lemma FirstPrice(s: Spec, powers: Powers)
    requires Valid(s) && Spaced(s, powers) && Prices(s, powers) != []
    ensures Prices(s, powers)[0] == PriceTick(Bounds(s).0, s.venue, s.side.Rounding()) > 0
    ensures StrictlyOutwards(Prices(s, powers), s.side)
    ensures 1 <= |Prices(s, powers)| <= MAX_RUNGS
  {
    var raw, mode := Geometric(Bounds(s).0, Bounds(s).1, s.rungs, powers), s.side.Rounding();
    SnapIsStrict(raw, s.venue, s.side);
    var tick := Prices(s, powers)[0];
    SnapLosesOnlyRepeats(raw, s.venue, mode, tick);
    assert tick in Prices(s, powers);
    var i :| 0 <= i < |raw| && PriceTick(raw[i], s.venue, mode) == tick;
    assert 0.0 < raw[0] by {
      StartIsPositive(s);
    }
    if s.side == Sell {
      TickUpIsLeast(raw[0], s.venue);
    } else {
      TickIsMonotone(raw[i], raw[0], s.venue, mode);
    }
    SnapKeepsFirst(raw, s.venue, mode);
  }

  lemma StartIsPositive(s: Spec)
    requires Valid(s)
    ensures 0.0 < Bounds(s).0
  {
    if s.side == Sell {
      ProductIsPositive(s.base, 1.0 + s.startPct);
    } else {
      ProductIsPositive(s.base, 1.0 - s.startPct);
    }
  }

  lemma ProductIsPositive(a: real, b: real)
    requires 0.0 < a && 0.0 < b
    ensures 0.0 < a * b
  {
  }

  // ---------- Handing units out from the far end ----------

  /** One more unit on every rung from k up to i. */
  ghost function AddBetween(rungs: seq<Rung>, k: int, i: int): (out: seq<Rung>)
    ensures |out| == |rungs|
  {
    seq(|rungs|, j requires 0 <= j < |rungs| => if k <= j < i then OneMore(rungs[j]) else rungs[j])
  }

  lemma AddOneMore(rungs: seq<Rung>, k: int, i: nat)
    requires k < i && 0 < i <= |rungs|
    ensures AddBetween(rungs[i - 1 := OneMore(rungs[i - 1])], k, i - 1) == AddBetween(rungs, k, i)
  {
  }

  lemma AddNothing(rungs: seq<Rung>, i: int)
    ensures AddBetween(rungs, i, i) == rungs
  {
  }

  lemma {:induction false} HandOutIsSuffix(rungs: seq<Rung>, i: nat, leftover: nat)
    requires leftover <= i <= |rungs|
    ensures HandOut(rungs, i, leftover) == AddBetween(rungs, i - leftover, i)
    ensures TotalQuantity(HandOut(rungs, i, leftover)) == TotalQuantity(rungs) + leftover
    decreases i
  {
    if leftover == 0 {
      AddNothing(rungs, i);
    } else {
      OneMoreCounts(rungs, i - 1);
      HandOutIsSuffix(rungs[i - 1 := OneMore(rungs[i - 1])], i - 1, leftover - 1);
      AddOneMore(rungs, i - leftover, i);
    }
  }

  lemma {:induction false} OneMoreCounts(rungs: seq<Rung>, k: nat)
    requires k < |rungs|
    ensures TotalQuantity(rungs[k := OneMore(rungs[k])]) == TotalQuantity(rungs) + 1
  {
    var n, after := |rungs| - 1, rungs[k := OneMore(rungs[k])];
    if k < n {
      OneMoreCounts(rungs[..n], k);
      assert after[..n] == rungs[..n][k := OneMore(rungs[k])];
    } else {
      assert after[..n] == rungs[..n];
    }
  }

  lemma {:induction false} EvenQuantityTotal(prices: seq<nat>, each: nat)
    ensures TotalQuantity(EvenQuantity(prices, each)) == |prices| * each
  {
    if prices != [] {
      var n := |prices| - 1;
      EvenQuantityTotal(prices[..n], each);
      assert EvenQuantity(prices, each)[..n] == EvenQuantity(prices[..n], each);
    }
  }

  /**
    A sell hands out exactly the holding: every rung carries the even share, and the units that did not
    divide evenly go one each to the rungs furthest from the base price, never to the first.
  */
  lemma SellConservesQuantity(s: Spec, prices: seq<nat>)
    requires Valid(s) && s.side == Sell && prices != [] && forall i | 0 <= i < |prices| :: 0 < prices[i]
    ensures var total, n := RoundQuantity(s.total, s.venue), |prices|;
      && TotalQuantity(Sized(s, prices)) == total
      && forall i | 0 <= i < n ::
           Sized(s, prices)[i] == Rung(i, prices[i], total / n + if n - total % n <= i then 1 else 0)
  {
    var total, n := RoundQuantity(s.total, s.venue), |prices|;
    RoundQuantityIsNat(s.total, s.venue);
    var (each, leftover) := Divide(total, n);
    QuotientBounds(total, n);
    if total == 0 {
      assert 0 / n == 0 && 0 % n == 0;
    }
    assert each == total / n && leftover == total % n;
    var even := EvenQuantity(prices, each);
    HandOutIsSuffix(even, n, leftover);
    EvenQuantityTotal(prices, each);
    assert n * each + leftover == total;
  }

  // ---------- Spending the cash ----------

  ghost predicate Falling(rungs: seq<Rung>) {
    forall i, j | 0 <= i <= j < |rungs| :: rungs[j].price <= rungs[i].price
  }

  ghost predicate Growing(rungs: seq<Rung>) {
    forall i, j | 0 <= i <= j < |rungs| :: rungs[i].quantity <= rungs[j].quantity
  }

  /** What it would cost to buy one unit on each of the first i rungs. */
  ghost function PassCost(rungs: seq<Rung>, i: nat, v: Venue): nat
    requires i <= |rungs|
  {
    if i == 0 then 0 else PassCost(rungs, i - 1, v) + UnitCost(rungs[i - 1].price, v)
  }

  lemma RungCostsMore(r: Rung, v: Venue)
    ensures RungAmount(OneMore(r), v) == RungAmount(r, v) + UnitCost(r.price, v)
  {
    AmountIsUnits(r.price, r.quantity, v);
    AmountIsUnits(r.price, r.quantity + 1, v);
  }

  lemma {:induction false} OneMoreCosts(rungs: seq<Rung>, k: nat, v: Venue)
    requires k < |rungs|
    ensures TotalAmount(rungs[k := OneMore(rungs[k])], v) == TotalAmount(rungs, v) + UnitCost(rungs[k].price, v)
  {
    var n, after := |rungs| - 1, rungs[k := OneMore(rungs[k])];
    if k < n {
      OneMoreCosts(rungs[..n], k, v);
      assert after[..n] == rungs[..n][k := OneMore(rungs[k])];
    } else {
      assert after[..n] == rungs[..n];
      RungCostsMore(rungs[k], v);
    }
  }

  /** Every unit a pass adds is paid for out of the cash it was given. */
  lemma {:induction false} PassConservesCash(rungs: seq<Rung>, i: nat, cash: int, v: Venue)
    requires i <= |rungs|
    ensures TotalAmount(Pass(rungs, i, cash, v).rungs, v) + Pass(rungs, i, cash, v).cash == TotalAmount(rungs, v) + cash
    decreases i
  {
    if i != 0 {
      var cost := UnitCost(rungs[i - 1].price, v);
      if cost > cash {
        PassConservesCash(rungs, i - 1, cash, v);
      } else {
        OneMoreCosts(rungs, i - 1, v);
        PassConservesCash(rungs[i - 1 := OneMore(rungs[i - 1])], i - 1, cash - cost, v);
      }
    }
  }

  lemma {:induction false} SpendOutConservesCash(rungs: seq<Rung>, cash: int, v: Venue)
    requires Priced(rungs)
    ensures TotalAmount(SpendOut(rungs, cash, v).rungs, v) + SpendOut(rungs, cash, v).cash == TotalAmount(rungs, v) + cash
    ensures 0 <= cash ==> 0 <= SpendOut(rungs, cash, v).cash
    ensures cash < 0 ==> SpendOut(rungs, cash, v) == Spread(rungs, cash)
    ensures SamePrices(rungs, SpendOut(rungs, cash, v).rungs)
    decreases if cash < 0 then 0 else cash
  {
    PassConservesCash(rungs, |rungs|, cash, v);
    PassKeepsShape(rungs, |rungs|, cash, v);
    var out := FullPass(rungs, cash, v);
    if out.cash != cash {
      SpendOutConservesCash(out.rungs, out.cash, v);
    }
  }

  lemma {:induction false} IdlePassCanAffordNothing(rungs: seq<Rung>, i: nat, cash: int, v: Venue)
    requires i <= |rungs| && Priced(rungs) && Pass(rungs, i, cash, v).cash == cash
    ensures forall j | 0 <= j < i :: cash < UnitCost(rungs[j].price, v)
  {
    if i != 0 {
      IdlePassCanAffordNothing(rungs, i - 1, cash, v);
    }
  }

  /** Cash left at the end cannot buy one more unit anywhere on the ladder. */
  lemma {:induction false} SpendOutIsMaximal(rungs: seq<Rung>, cash: int, v: Venue)
    requires Priced(rungs)
    ensures forall i | 0 <= i < |rungs| :: SpendOut(rungs, cash, v).cash < UnitCost(rungs[i].price, v)
    decreases if cash < 0 then 0 else cash
  {
    PassKeepsShape(rungs, |rungs|, cash, v);
    var out := FullPass(rungs, cash, v);
    if out.cash != cash {
      SpendOutIsMaximal(out.rungs, out.cash, v);
      forall i | 0 <= i < |rungs|
        ensures SpendOut(rungs, cash, v).cash < UnitCost(rungs[i].price, v)
      {
        assert out.rungs[i].price == rungs[i].price;
      }
    } else {
      IdlePassCanAffordNothing(rungs, |rungs|, cash, v);
    }
  }

  lemma {:induction false} TooDearToBuy(rungs: seq<Rung>, i: nat, cash: int, v: Venue)
    requires Falling(rungs) && 0 < i <= |rungs| && cash < UnitCost(rungs[i - 1].price, v)
    ensures Pass(rungs, i, cash, v) == Spread(rungs, cash)
  {
    if 1 < i {
      MulKeepsOrder(rungs[i - 1].price, rungs[i - 2].price, CashScale(v));
      TooDearToBuy(rungs, i - 1, cash, v);
    }
  }

  /** On falling prices a pass buys on a suffix: once a rung is too dear, so is every rung nearer the base. */
  lemma {:induction false} PassIsSuffix(rungs: seq<Rung>, i: nat, cash: int, v: Venue) returns (k: nat)
    requires i <= |rungs| && Falling(rungs)
    ensures k <= i && Pass(rungs, i, cash, v).rungs == AddBetween(rungs, k, i)
    ensures 0 < k ==> Pass(rungs, i, cash, v).cash < UnitCost(rungs[k - 1].price, v)
    ensures k == 0 ==> PassCost(rungs, i, v) + Pass(rungs, i, cash, v).cash == cash
    ensures k == i ==> Pass(rungs, i, cash, v).cash == cash
    ensures k < i ==> Pass(rungs, i, cash, v).cash <= cash - UnitCost(rungs[i - 1].price, v)
    ensures Pass(rungs, i, cash, v).cash == cash - (PassCost(rungs, i, v) - PassCost(rungs, k, v))
    decreases i
  {
    if i == 0 {
      k := 0;
      AddNothing(rungs, 0);
    } else if UnitCost(rungs[i - 1].price, v) > cash {
      k := i;
      TooDearToBuy(rungs, i, cash, v);
      AddNothing(rungs, i);
    } else {
      var after, rest := rungs[i - 1 := OneMore(rungs[i - 1])], cash - UnitCost(rungs[i - 1].price, v);
      assert PassCost(rungs, i, v) == PassCost(rungs, i - 1, v) + UnitCost(rungs[i - 1].price, v);
      assert Pass(rungs, i, cash, v) == Pass(after, i - 1, rest, v);
      assert Falling(after) && SamePrices(rungs, after);
      hide AddBetween, UnitCost, PassCost, Pass, Falling, SamePrices;
      k := PassIsSuffix(after, i - 1, rest, v);
      AddOneMore(rungs, k, i);
      SamePricesSameCost(rungs, after, i - 1, v);
      SamePricesSameCost(rungs, after, k, v);
    }
  }

  lemma {:induction false} SamePricesSameCost(a: seq<Rung>, b: seq<Rung>, i: nat, v: Venue)
    requires SamePrices(a, b) && i <= |a|
    ensures PassCost(a, i, v) == PassCost(b, i, v)
  {
    if i != 0 {
      SamePricesSameCost(a, b, i - 1, v);
    }
  }

  /**
    The leftover goes to the far end: with falling prices and less cash than a full pass costs, the dearest
    rung receives nothing, and a quantity never falls as the price does.
  */
  lemma {:induction false} LeftoverAvoidsDearest(rungs: seq<Rung>, cash: int, v: Venue)
    requires Priced(rungs) && Falling(rungs) && rungs != [] && cash < PassCost(rungs, |rungs|, v)
    ensures SpendOut(rungs, cash, v).rungs[0] == rungs[0]
    ensures Growing(rungs) ==> Growing(SpendOut(rungs, cash, v).rungs)
    ensures forall i | 0 <= i < |rungs| :: rungs[i].quantity <= SpendOut(rungs, cash, v).rungs[i].quantity
    decreases if cash < 0 then 0 else cash
  {
    var out := FullPass(rungs, cash, v);
    var k := PassIsSuffix(rungs, |rungs|, cash, v);
    PassKeepsShape(rungs, |rungs|, cash, v);
    if out.cash != cash {
      SamePricesSameCost(rungs, out.rungs, |rungs|, v);
      LeftoverAvoidsDearest(out.rungs, out.cash, v);
    }
  }

  /** How many passes of the outer loop buy something. */
  ghost function BuyingPasses(rungs: seq<Rung>, cash: int, v: Venue): nat
    requires Priced(rungs)
    decreases if cash < 0 then 0 else cash
  {
    PassKeepsShape(rungs, |rungs|, cash, v);
    var out := FullPass(rungs, cash, v);
    if out.cash == cash then 0 else 1 + BuyingPasses(out.rungs, out.cash, v)
  }

  lemma IdleWhenCheapestIsTooDear(rungs: seq<Rung>, cash: int, v: Venue)
    requires Priced(rungs) && Falling(rungs) && rungs != []
    requires cash < UnitCost(rungs[|rungs| - 1].price, v)
    ensures BuyingPasses(rungs, cash, v) == 0
  {
    TooDearToBuy(rungs, |rungs|, cash, v);
  }

  /** When the dearest price is at most twice the cheapest, the loop does settle within two buying passes. */
  lemma NarrowRangeSettlesInTwoPasses(rungs: seq<Rung>, cash: int, v: Venue)
    requires Priced(rungs) && Falling(rungs) && rungs != [] && cash < PassCost(rungs, |rungs|, v)
    requires rungs[0].price <= 2 * rungs[|rungs| - 1].price
    ensures BuyingPasses(rungs, cash, v) <= 2
  {
    hide AddBetween, PassCost, UnitCost, Pass;
    var n := |rungs|;
    var first := FullPass(rungs, cash, v);
    var k := PassIsSuffix(rungs, n, cash, v);
    PassKeepsShape(rungs, n, cash, v);
    if first.cash != cash {
      CostAtMostDouble(rungs[k - 1].price, rungs[n - 1].price, v);
      var second := FullPass(first.rungs, first.cash, v);
      var k2 := PassIsSuffix(first.rungs, n, first.cash, v);
      PassKeepsShape(first.rungs, n, first.cash, v);
      if second.cash != first.cash {
        IdleWhenCheapestIsTooDear(second.rungs, second.cash, v);
      }
    }
  }

  ghost predicate StrictlyFalling(rungs: seq<Rung>) {
    forall i, j | 0 <= i < j < |rungs| :: rungs[j].price < rungs[i].price
  }

  lemma {:induction false} PassCostGrows(rungs: seq<Rung>, i: nat, j: nat, v: Venue)
    requires i < j <= |rungs|
    ensures PassCost(rungs, i, v) + UnitCost(rungs[j - 1].price, v) <= PassCost(rungs, j, v)
  {
    if i < j - 1 {
      PassCostGrows(rungs, i, j - 1, v);
    }
  }

  /** With just enough for every rung but the dearest, and less than the dearest to spare, a pass leaves the spare. */
  lemma PassLeavesSpare(rungs: seq<Rung>, spare: nat, v: Venue)
    requires rungs != [] && Falling(rungs) && Priced(rungs) && spare < UnitCost(rungs[0].price, v)
    ensures var n := |rungs|;
      FullPass(rungs, PassCost(rungs, n, v) - PassCost(rungs, 1, v) + spare, v).cash == spare
  {
    var n := |rungs|;
    var cash := PassCost(rungs, n, v) - PassCost(rungs, 1, v) + spare;
    var k := PassIsSuffix(rungs, n, cash, v);
    assert PassCost(rungs, 1, v) == UnitCost(rungs[0].price, v);
    if 1 < n {
      PassCostGrows(rungs, 1, n, v);
    }
    PassKeepsShape(rungs, n, cash, v);
    if 1 < k {
      PassCostGrows(rungs, 1, k, v);
    }
  }

  /** Twice the cheapest takes two passes when everything else is dearer. */
  lemma TwoUnitsTwoPasses(rungs: seq<Rung>, v: Venue)
    requires 1 < |rungs| && Priced(rungs) && StrictlyFalling(rungs)
    ensures BuyingPasses(rungs, 2 * UnitCost(rungs[|rungs| - 1].price, v), v) >= 2
  {
    var n := |rungs|;
    var c := UnitCost(rungs[n - 1].price, v);
    OneUnitLeft(rungs, 2 * c, v);
    var first := FullPass(rungs, 2 * c, v);
    PassKeepsShape(rungs, n, 2 * c, v);
    OneUnitLeft(first.rungs, c, v);
    hide FullPass, UnitCost;
    assert BuyingPasses(first.rungs, c, v) >= 1;
  }

  /** One or two units' worth of the cheapest buys one unit, and everything nearer is too dear for what is left. */
  lemma OneUnitLeft(rungs: seq<Rung>, cash: nat, v: Venue)
    requires 1 < |rungs| && Priced(rungs) && StrictlyFalling(rungs)
    requires var c := UnitCost(rungs[|rungs| - 1].price, v); cash == c || cash == 2 * c
    ensures FullPass(rungs, cash, v).cash == cash - UnitCost(rungs[|rungs| - 1].price, v)
  {
    var n := |rungs|;
    var c := UnitCost(rungs[n - 1].price, v);
    var after := rungs[n - 1 := OneMore(rungs[n - 1])];
    MulKeepsOrder(rungs[n - 1].price + 1, rungs[n - 2].price, CashScale(v));
    assert UnitCost(rungs[n - 2].price, v) > c;
    TooDearToBuy(after, n - 1, cash - c, v);
  }

  /** Two buying passes spend any cash below the cost of a full pass exactly when the dearest price is at most twice the cheapest. */
  lemma TwoPassesIff(rungs: seq<Rung>, v: Venue)
    requires Priced(rungs) && StrictlyFalling(rungs) && rungs != []
    ensures (forall cash: nat | cash < PassCost(rungs, |rungs|, v) :: BuyingPasses(rungs, cash, v) <= 2)
      <==> rungs[0].price <= 2 * rungs[|rungs| - 1].price
  {
    var n := |rungs|;
    hide BuyingPasses, PassCost;
    if rungs[0].price <= 2 * rungs[n - 1].price {
      forall cash: nat | cash < PassCost(rungs, n, v)
        ensures BuyingPasses(rungs, cash, v) <= 2
      {
        NarrowRangeSettlesInTwoPasses(rungs, cash, v);
      }
    } else {
      var cash := WideRangeNeedsThree(rungs, v);
    }
  }

  lemma SpareIsSmall(rungs: seq<Rung>, v: Venue)
    requires Priced(rungs) && rungs != [] && 2 * rungs[|rungs| - 1].price < rungs[0].price
    ensures var n, spare := |rungs|, 2 * UnitCost(rungs[|rungs| - 1].price, v);
      && 1 < n && 0 < spare < UnitCost(rungs[0].price, v) == PassCost(rungs, 1, v) < PassCost(rungs, n, v)
  {
    MulKeepsOrder(2 * rungs[|rungs| - 1].price + 1, rungs[0].price, CashScale(v));
    PassCostGrows(rungs, 1, |rungs|, v);
    assert PassCost(rungs, 0, v) == 0;
  }

  lemma SamePricesFallAlike(a: seq<Rung>, b: seq<Rung>)
    requires SamePrices(a, b) && Priced(a) && StrictlyFalling(a)
    ensures Priced(b) && StrictlyFalling(b)
  {
  }

  lemma WideRangeNeedsThree(rungs: seq<Rung>, v: Venue) returns (cash: nat)
    requires Priced(rungs) && StrictlyFalling(rungs) && rungs != [] && 2 * rungs[|rungs| - 1].price < rungs[0].price
    ensures cash == PassCost(rungs, |rungs|, v) - PassCost(rungs, 1, v) + 2 * UnitCost(rungs[|rungs| - 1].price, v)
    ensures cash < PassCost(rungs, |rungs|, v) && 2 < BuyingPasses(rungs, cash, v)
  {
    assert Falling(rungs);
    var n := |rungs|;
    var spare := 2 * UnitCost(rungs[n - 1].price, v);
    SpareIsSmall(rungs, v);
    hide PassCost, UnitCost, Pass, StrictlyFalling, Priced, Falling, SamePrices;
    cash := PassCost(rungs, n, v) - PassCost(rungs, 1, v) + spare;
    PassKeepsShape(rungs, n, cash, v);
    var first := FullPass(rungs, cash, v);
    hide FullPass;
    PassLeavesSpare(rungs, spare, v);
    SamePricesFallAlike(rungs, first.rungs);
    TwoUnitsTwoPasses(first.rungs, v);
  }

  lemma CostAtMostDouble(high: nat, low: nat, v: Venue)
    requires high <= 2 * low
    ensures UnitCost(high, v) <= 2 * UnitCost(low, v)
  {
    MulKeepsOrder(high, 2 * low, CashScale(v));
  }
}
