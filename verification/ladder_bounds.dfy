/** How much a ladder commits, how many rungs it can carry, and what the uneven split does to the fill. */
module LadderBounds {
  import opened Arithmetic
  import opened Market
  import opened Wrappers
  import opened Ladder
  import opened LadderTheorems

  ghost predicate Positive(prices: seq<nat>) {
    forall i | 0 <= i < |prices| :: 0 < prices[i]
  }

  // ---------- A buy against its budget ----------

  lemma DivRoundBounds(a: nat, n: nat)
    requires 0 < n
    ensures 2 * (n * DivRound(a, n)) <= 2 * a + n < 2 * (n * DivRound(a, n)) + 2 * n
  {
    QuotientBounds(2 * a + n, 2 * n);
  }

  /** One even share buys whole units: at most the share less its own sub-grid dust, and short by under a unit. */
  lemma ShareBounds(per: nat, price: nat, v: Venue)
    requires 0 < price
    ensures var spent := Amount(price, QuantityFor(per, price, v), v);
      && spent <= per / CashScale(v) * CashScale(v)
      && per < spent + UnitCost(price, v)
  {
    var q, scale := QuantityFor(per, price, v), CashScale(v);
    AmountIsUnits(price, q, v);
    QuantityForIsGreatest(per, price, v, q);
    QuantityForIsGreatest(per, price, v, q + 1);
    AmountIsUnits(price, q + 1, v);
    assert Amount(price, q, v) == (price * q) * scale;
    QuotientIsGreatest(per, scale, price * q);
    MulKeepsOrder(price * q, per / scale, scale);
  }

  lemma {:induction false} EvenCashBounds(prices: seq<nat>, per: nat, v: Venue)
    requires Positive(prices)
    ensures var split, n := EvenCash(prices, per, v), |prices|;
      && TotalAmount(split, v) <= n * (per / CashScale(v) * CashScale(v))
      && n * per + n <= TotalAmount(split, v) + PassCost(split, n, v)
  {
    if prices != [] {
      var n := |prices| - 1;
      var split, head := EvenCash(prices, per, v), EvenCash(prices[..n], per, v);
      EvenCashBounds(prices[..n], per, v);
      assert split[..n] == head;
      ShareBounds(per, prices[n], v);
      PassCostOfPrefix(split, n, v);
      Distribute(n, per / CashScale(v) * CashScale(v));
      Distribute(n, per);
    }
  }

  lemma Distribute(n: int, x: int)
    ensures (n + 1) * x == n * x + x
  {
  }

  lemma {:induction false} PassCostOfPrefix(rungs: seq<Rung>, n: nat, v: Venue)
    requires n < |rungs|
    ensures PassCost(rungs[..n], n, v) == PassCost(rungs, n, v)
  {
    PassCostAgrees(rungs[..n], rungs, n, v);
  }

  lemma {:induction false} PassCostAgrees(a: seq<Rung>, b: seq<Rung>, i: nat, v: Venue)
    requires i <= |a| <= |b| && forall j | 0 <= j < |a| :: a[j] == b[j]
    ensures PassCost(a, i, v) == PassCost(b, i, v)
  {
    if i != 0 {
      PassCostAgrees(a, b, i - 1, v);
    }
  }

  ghost function Share(s: Spec, n: nat): nat
    requires Valid(s) && 0 < n
  {
    BudgetIsNat(s);
    DivRound(Budget(s), n)
  }

  /** The even split leaves less cash than one full pass over the ladder would cost. */
  lemma EvenSplitOfBudget(s: Spec, prices: seq<nat>)
    requires Valid(s) && prices != [] && Positive(prices)
    ensures var n, split := |prices|, EvenCash(prices, Share(s, |prices|), s.venue);
      && 2 * TotalAmount(split, s.venue) <= 2 * Budget(s) + n
      && Budget(s) - TotalAmount(split, s.venue) < PassCost(split, n, s.venue)
      && TotalAmount(split, s.venue) <= n * (Share(s, n) / CashScale(s.venue) * CashScale(s.venue))
  {
    var n := |prices|;
    BudgetIsNat(s);
    var per := Share(s, n);
    DivRoundBounds(Budget(s), n);
    EvenCashBounds(prices, per, s.venue);
    QuotientBounds(per, CashScale(s.venue));
    MulKeepsOrder(per / CashScale(s.venue) * CashScale(s.venue), per, n);
  }

  /** A buy exceeds its budget by at most half a unit of working precision for each rung. */
  lemma BuyOverspendsByDustOnly(s: Spec, prices: seq<nat>)
    requires Valid(s) && s.side == Buy && prices != [] && Positive(prices)
    ensures 2 * TotalAmount(Sized(s, prices), s.venue) <= 2 * Budget(s) + |prices|
  {
    EvenSplitOfBudget(s, prices);
    var split := EvenCash(prices, Share(s, |prices|), s.venue);
    SpendOutConservesCash(split, Budget(s) - TotalAmount(split, s.venue), s.venue);
  }

  lemma GridSumFits(n: nat, part: nat, per: nat, budget: nat)
    requires n <= MAX_RUNGS && part <= per && part % 100 == 0 && budget % 100 == 0
    requires 2 * (n * per) <= 2 * budget + n
    ensures n * part <= budget
  {
    MulKeepsOrder(part, per, n);
    MultipleHasNoRemainder(n * (part / 100), 100);
    assert n * part == n * (part / 100) * 100;
    MultiplesAreSpaced(n * part, budget, 100);
  }

  /** A budget on the 10^-16 grid, which every order amount lies on, is never exceeded. */
  lemma GridBudgetIsNeverExceeded(s: Spec, prices: seq<nat>)
    requires Valid(s) && s.side == Buy && prices != [] && Positive(prices)
    requires |prices| <= MAX_RUNGS && Budget(s) % 100 == 0
    ensures TotalAmount(Sized(s, prices), s.venue) <= Budget(s)
  {
    var n, v := |prices|, s.venue;
    BudgetIsNat(s);
    var per := Share(s, n);
    DivRoundBounds(Budget(s), n);
    CutToGrid(per, v);
    GridSumFits(n, per / CashScale(v) * CashScale(v), per, Budget(s));
    EvenSplitOfBudget(s, prices);
    var split := EvenCash(prices, per, v);
    SpendOutConservesCash(split, Budget(s) - TotalAmount(split, v), v);
  }

  lemma CutToGrid(per: nat, v: Venue)
    ensures var cut := per / CashScale(v) * CashScale(v);
      0 <= cut <= per && cut % 100 == 0
  {
    QuotientBounds(per, CashScale(v));
    var parts := per / CashScale(v);
    if v.IsUpbit() {
      MultipleHasNoRemainder(parts, 100);
    } else {
      MultipleHasNoRemainder(parts * 100_000_000, 100);
      assert parts * CashScale(v) == parts * 100_000_000 * 100;
    }
  }

  // ---------- What a plan commits ----------

  lemma BuildShape(s: Spec, powers: Powers)
    requires Build(s, powers).Ok?
    ensures var plan, prices := Build(s, powers).value, Prices(s, powers);
      && Valid(s) && plan.spec == s && plan.requested == s.rungs
      && 1 <= |prices| <= MAX_RUNGS && Positive(prices)
      && plan.rungs == Sized(s, prices)
      && plan.start == prices[0] && plan.end == prices[|prices| - 1]
      && (forall i | 0 <= i < |prices| :: plan.rungs[i].index == i && plan.rungs[i].price == prices[i])
      && (forall i | 0 <= i < |prices| :: OrderSizeValid(plan.rungs[i].quantity, plan.rungs[i].price, s.venue))
  {
    var prices := Prices(s, powers);
    SizedKeepsPrices(s, prices);
  }

  lemma SizedKeepsPrices(s: Spec, prices: seq<nat>)
    requires Valid(s) && prices != [] && Positive(prices)
    ensures forall i | 0 <= i < |prices| :: Sized(s, prices)[i].index == i && Sized(s, prices)[i].price == prices[i]
  {
    if s.side == Sell {
      SellConservesQuantity(s, prices);
    } else {
      var split := EvenCash(prices, Share(s, |prices|), s.venue);
      SpendOutConservesCash(split, Budget(s) - TotalAmount(split, s.venue), s.venue);
    }
  }

  /** A sell plan never locks more than the holding it was given. */
  lemma SellCommitsAtMostTotal(s: Spec, powers: Powers)
    requires Build(s, powers).Ok? && s.side == Sell
    ensures TotalQuantity(Build(s, powers).value.rungs) == RoundQuantity(s.total, s.venue)
    ensures CommitsWithinTotal(Build(s, powers).value)
  {
    BuildShape(s, powers);
    SellConservesQuantity(s, Prices(s, powers));
    QuotientBounds(s.total, UnitSize(s.venue));
  }

  lemma WithCommission(amount: real, budget: real, dust: real, rate: real, total: real)
    requires amount <= budget + dust && 0.0 <= rate && budget * rate <= total
    ensures amount * rate <= total + dust * rate
  {
    assert 0.0 <= (budget + dust - amount) * rate;
  }

  /** The total, and half of 10^-18 for each rung, commission included. */
  ghost function TotalAndDust(p: Plan): real {
    p.spec.total as real + |p.rungs| as real / 2.0 * (1.0 + p.spec.fee)
  }

  ghost predicate CommitsUpToDust(p: Plan) {
    Commitment(p) <= TotalAndDust(p)
  }

  ghost predicate CommitsWithinTotal(p: Plan) {
    Commitment(p) <= p.spec.total as real
  }

  lemma CommissionFits(p: Plan, budget: int)
    requires p.spec.side == Buy && 0.0 <= p.spec.fee
    requires budget as real * (1.0 + p.spec.fee) <= p.spec.total as real
    requires 2 * TotalAmount(p.rungs, p.spec.venue) <= 2 * budget + |p.rungs|
    ensures CommitsUpToDust(p)
    ensures TotalAmount(p.rungs, p.spec.venue) <= budget ==> CommitsWithinTotal(p)
  {
    var amount, rate := TotalAmount(p.rungs, p.spec.venue), 1.0 + p.spec.fee;
    WithCommission(amount as real, budget as real, |p.rungs| as real / 2.0, rate, p.spec.total as real);
    if amount <= budget {
      WithCommission(amount as real, budget as real, 0.0, rate, p.spec.total as real);
    }
  }

  lemma SizedBuyFits(s: Spec, prices: seq<nat>)
    requires Valid(s) && s.side == Buy && 1 <= |prices| <= MAX_RUNGS && Positive(prices)
    ensures 2 * TotalAmount(Sized(s, prices), s.venue) <= 2 * Budget(s) + |prices|
    ensures Budget(s) % 100 == 0 ==> TotalAmount(Sized(s, prices), s.venue) <= Budget(s)
  {
    BuyOverspendsByDustOnly(s, prices);
    if Budget(s) % 100 == 0 {
      GridBudgetIsNeverExceeded(s, prices);
    }
  }

  /** What the bounds on a sized buy say about its plan, with the budget known only by what it is worth. */
  lemma SizedBuyCommits(p: Plan, prices: seq<nat>) returns (budget: int)
    requires Valid(p.spec) && p.spec.side == Buy && 1 <= |prices| <= MAX_RUNGS && Positive(prices)
    requires p.rungs == Sized(p.spec, prices)
    ensures budget == Budget(p.spec)
    ensures budget as real * (1.0 + p.spec.fee) <= p.spec.total as real
    ensures 2 * TotalAmount(p.rungs, p.spec.venue) <= 2 * budget + |p.rungs|
    ensures budget % 100 == 0 ==> TotalAmount(p.rungs, p.spec.venue) <= budget
  {
    hide Budget, Sized;
    budget := Budget(p.spec);
    BudgetIsNat(p.spec);
    SizedBuyFits(p.spec, prices);
  }

  /** A buy plan, commission included, fits the total up to half a unit of working precision for each rung. */
  lemma BuyCommitsAtMostTotal(s: Spec, powers: Powers)
    requires Build(s, powers).Ok? && s.side == Buy
    ensures CommitsUpToDust(Build(s, powers).value)
    ensures Budget(s) % 100 == 0 ==> CommitsWithinTotal(Build(s, powers).value)
  {
    BuildShape(s, powers);
    var plan := Build(s, powers).value;
    var budget := SizedBuyCommits(plan, Prices(s, powers));
    CommissionFits(plan, budget);
  }

  lemma SizedBuyIsMaximal(s: Spec, prices: seq<nat>)
    requires Valid(s) && s.side == Buy && prices != [] && Positive(prices)
    ensures forall i | 0 <= i < |prices| ::
      Budget(s) - TotalAmount(Sized(s, prices), s.venue) < UnitCost(prices[i], s.venue)
  {
    var v := s.venue;
    var split := EvenCash(prices, Share(s, |prices|), v);
    SpendOutConservesCash(split, Budget(s) - TotalAmount(split, v), v);
    SpendOutIsMaximal(split, Budget(s) - TotalAmount(split, v), v);
    forall i | 0 <= i < |prices|
      ensures Budget(s) - TotalAmount(Sized(s, prices), v) < UnitCost(prices[i], v)
    {
      assert split[i].price == prices[i];
    }
  }

  /** Cash a built buy leaves unspent cannot pay for one more unit on any of its rungs. */
  lemma BuyLeavesNothingOnTheTable(s: Spec, powers: Powers)
    requires Build(s, powers).Ok? && s.side == Buy
    ensures var plan := Build(s, powers).value;
      forall i | 0 <= i < |plan.rungs| ::
        Budget(s) - TotalAmount(plan.rungs, s.venue) < UnitCost(plan.rungs[i].price, s.venue)
  {
    BuildShape(s, powers);
    SizedBuyIsMaximal(s, Prices(s, powers));
  }

  // ---------- Every rung passes the adapter ----------

  /**
    A successful build needs no second look: each rung passes the size, unit, symbol and price-grid checks
    of the adapter that will submit it, also where a sell price was rounded up into a higher tick tier.
  */
  lemma BuiltRungsAreSubmittable(s: Spec, powers: Powers)
    requires Build(s, powers).Ok?
    ensures forall r | r in Build(s, powers).value.rungs :: Submittable(s.venue, s.symbol, r.quantity, r.price)
  {
    BuildShape(s, powers);
    var plan, prices := Build(s, powers).value, Prices(s, powers);
    var raw, mode := Geometric(Bounds(s).0, Bounds(s).1, s.rungs, powers), s.side.Rounding();
    forall r | r in plan.rungs
      ensures Submittable(s.venue, s.symbol, r.quantity, r.price)
    {
      var i :| 0 <= i < |plan.rungs| && plan.rungs[i] == r;
      assert r.price in prices;
      SnapLosesOnlyRepeats(raw, s.venue, mode, r.price);
      var j :| 0 <= j < |raw| && PriceTick(raw[j], s.venue, mode) == r.price;
      if mode == RoundUp {
        TickUpIsLeast(raw[j], s.venue);
      } else {
        TickDownIsGreatest(raw[j], s.venue);
      }
      GridIsFixedPoints(r.price, s.venue, RoundDown);
    }
  }

  // ---------- Build against MaxRungs ----------

  lemma BuildsIffEveryRungIsValid(s: Spec, powers: Powers)
    requires Valid(s) && Prices(s, powers) != [] && Positive(Prices(s, powers))
    ensures Build(s, powers).Ok? <==>
      forall i | 0 <= i < |Prices(s, powers)| ::
        OrderSizeValid(Sized(s, Prices(s, powers))[i].quantity, Sized(s, Prices(s, powers))[i].price, s.venue)
  {
  }

  /** A sell builds exactly when its merged rung count is within MaxRungs. */
  lemma SellBuildsIffWithinMaxRungs(s: Spec, powers: Powers)
    requires Valid(s) && s.side == Sell && Spaced(s, powers)
    ensures Build(s, powers).Ok? <==> |Prices(s, powers)| <= MaxRungs(s)
  {
    var prices := Prices(s, powers);
    var raw := Geometric(Bounds(s).0, Bounds(s).1, s.rungs, powers);
    StartIsPositive(s);
    TickUpIsLeast(raw[0], s.venue);
    SnapKeepsFirst(raw, s.venue, RoundUp);
    FirstPrice(s, powers);
    SellConservesQuantity(s, prices);
    BuildsIffEveryRungIsValid(s, powers);
    var total, n, need := RoundQuantity(s.total, s.venue), |prices|, MinQuantity(prices[0], s.venue);
    MinQuantityIsThreshold(total / n, prices[0], s.venue);
    QuotientIsGreatest(total, n, need);
    QuotientIsGreatest(total, need, n);
    if need <= total / n {
      forall i | 0 <= i < n
        ensures OrderSizeValid(Sized(s, prices)[i].quantity, Sized(s, prices)[i].price, s.venue)
      {
        MinQuantityFalls(prices[0], prices[i], s.venue);
        MinQuantityIsThreshold(Sized(s, prices)[i].quantity, prices[i], s.venue);
      }
    } else {
      assert Sized(s, prices)[0].quantity == total / n;
    }
  }

  /** The cash the rung nearest the base needs, which is what MaxRungs divides the budget by. */
  ghost function FirstNeed(s: Spec, price: nat): nat {
    Amount(price, MinQuantity(price, s.venue), s.venue)
  }

  lemma BuyMaxRungs(s: Spec, powers: Powers)
    requires Valid(s) && s.side == Buy && Spaced(s, powers) && Prices(s, powers) != []
    ensures var need := FirstNeed(s, Prices(s, powers)[0]);
      && 0 < need && need % 100 == 0
      && (|Prices(s, powers)| <= MaxRungs(s) <==> |Prices(s, powers)| * need <= Budget(s))
  {
    FirstPrice(s, powers);
    var prices, v := Prices(s, powers), s.venue;
    var quantity := MinQuantity(prices[0], v);
    MinQuantityIsThreshold(quantity, prices[0], v);
    NeedIsPositive(prices[0], quantity, v);
    QuotientIsGreatest(Budget(s), FirstNeed(s, prices[0]), |prices|);
    AmountIsOnGrid(prices[0], quantity, v);
  }

  lemma AmountIsOnGrid(price: nat, quantity: nat, v: Venue)
    ensures Amount(price, quantity, v) % 100 == 0
  {
    if v.IsUpbit() {
      MultipleHasNoRemainder(price * quantity, 100);
    } else {
      MultipleHasNoRemainder(price * quantity * 100_000_000, 100);
      assert Amount(price, quantity, v) == price * quantity * 100_000_000 * 100;
    }
  }

  /** The rungs of a buy: the first holds the bare share, and the others hold at least theirs. */
  lemma SizedBuyShape(s: Spec, prices: seq<nat>)
    requires Valid(s) && s.side == Buy && prices != [] && Positive(prices) && StrictlyOutwards(prices, Buy)
    ensures Sized(s, prices)[0].quantity == QuantityFor(Share(s, |prices|), prices[0], s.venue)
    ensures forall i | 0 <= i < |prices| ::
      QuantityFor(Share(s, |prices|), prices[i], s.venue) <= Sized(s, prices)[i].quantity
    ensures Falling(Sized(s, prices)) && Growing(Sized(s, prices))
  {
    var v := s.venue;
    var split := EvenCash(prices, Share(s, |prices|), v);
    EvenSplitOfBudget(s, prices);
    EvenCashGrows(prices, Share(s, |prices|), v);
    LeftoverAvoidsDearest(split, Budget(s) - TotalAmount(split, v), v);
    SizedKeepsPrices(s, prices);
    forall i | 0 <= i < |prices|
      ensures QuantityFor(Share(s, |prices|), prices[i], v) <= Sized(s, prices)[i].quantity
    {
      assert split[i].quantity == QuantityFor(Share(s, |prices|), prices[i], v);
    }
  }

  lemma BuyRungs(s: Spec, powers: Powers)
    requires Valid(s) && s.side == Buy && Spaced(s, powers) && Prices(s, powers) != []
    ensures var prices := Prices(s, powers);
      && Positive(prices) && StrictlyOutwards(prices, Buy)
      && Sized(s, prices)[0].quantity == QuantityFor(Share(s, |prices|), prices[0], s.venue)
      && (forall i | 0 <= i < |prices| :: QuantityFor(Share(s, |prices|), prices[i], s.venue) <= Sized(s, prices)[i].quantity)
      && Falling(Sized(s, prices)) && Growing(Sized(s, prices))
  {
    FirstPrice(s, powers);
    SizedBuyShape(s, Prices(s, powers));
  }

  lemma EvenCashGrows(prices: seq<nat>, per: nat, v: Venue)
    requires Positive(prices) && StrictlyOutwards(prices, Buy)
    ensures Falling(EvenCash(prices, per, v)) && Growing(EvenCash(prices, per, v))
  {
    forall i, j | 0 <= i < j < |prices|
      ensures QuantityFor(per, prices[i], v) <= QuantityFor(per, prices[j], v)
    {
      var q := QuantityFor(per, prices[i], v);
      QuantityForIsGreatest(per, prices[i], v, q);
      QuantityForIsGreatest(per, prices[j], v, q);
      AmountIsUnits(prices[i], q, v);
      AmountIsUnits(prices[j], q, v);
      MulKeepsOrder(prices[j], prices[i], CashScale(v));
      MulKeepsOrder(UnitCost(prices[j], v), UnitCost(prices[i], v), q);
    }
  }

  /** With a budget on the 10^-16 grid, no buy builds with more rungs than MaxRungs names. */
  lemma BuiltBuyIsWithinMaxRungs(s: Spec, powers: Powers)
    requires Build(s, powers).Ok? && s.side == Buy && Spaced(s, powers) && Budget(s) % 100 == 0
    ensures |Build(s, powers).value.rungs| <= MaxRungs(s)
  {
    BuildShape(s, powers);
    BuyMaxRungs(s, powers);
    BuyRungs(s, powers);
    var prices, v := Prices(s, powers), s.venue;
    var n, per, need := |prices|, Share(s, |prices|), FirstNeed(s, prices[0]);
    var quantity := QuantityFor(per, prices[0], v);
    MinQuantityIsThreshold(quantity, prices[0], v);
    QuantityForIsGreatest(per, prices[0], v, MinQuantity(prices[0], v));
    BudgetIsNat(s);
    DivRoundBounds(Budget(s), n);
    GridSumFits(n, need, per, Budget(s));
  }

  lemma ShareCoversEqualParts(s: Spec, n: nat, part: nat)
    requires Valid(s) && 0 < n && n * part <= Budget(s)
    ensures part <= Share(s, n)
  {
    BudgetIsNat(s);
    DivRoundBounds(Budget(s), n);
    var budget, per := Budget(s), Share(s, n);
    hide Budget, Share, DivRound, Valid;
    EqualPartsFit(budget, n, part, per);
  }

  lemma EqualPartsFit(budget: nat, n: nat, part: nat, per: nat)
    requires n * part <= budget && 2 * budget + n < 2 * (n * per) + 2 * n
    ensures part <= per
  {
    if per < part {
      MulKeepsOrder(per + 1, part, n);
      Distribute(per, n);
    }
  }

  /** On Toss the converse holds too: a buy whose merged rung count is within MaxRungs builds. */
  lemma TossBuyBuildsWithinMaxRungs(s: Spec, powers: Powers)
    requires Valid(s) && s.side == Buy && s.venue == Toss && Spaced(s, powers) && Prices(s, powers) != []
    requires |Prices(s, powers)| <= MaxRungs(s)
    ensures Build(s, powers).Ok?
  {
    BuyMaxRungs(s, powers);
    BuyRungs(s, powers);
    var prices := Prices(s, powers);
    var per := Share(s, |prices|);
    ShareCoversEqualParts(s, |prices|, FirstNeed(s, prices[0]));
    QuantityForIsGreatest(per, prices[0], Toss, 1);
    SizedKeepsPrices(s, prices);
    BuildsIffEveryRungIsValid(s, powers);
    forall i | 0 <= i < |prices|
      ensures OrderSizeValid(Sized(s, prices)[i].quantity, Sized(s, prices)[i].price, Toss)
    {
      assert Sized(s, prices)[0].quantity <= Sized(s, prices)[i].quantity;
    }
  }

  /** On Upbit a buy builds when the budget covers, for each rung, the minimum amount and one unit of the dearest. */
  lemma UpbitBuyBuildsWithMargin(s: Spec, powers: Powers)
    requires Valid(s) && s.side == Buy && s.venue.IsUpbit() && Spaced(s, powers) && Prices(s, powers) != []
    requires |Prices(s, powers)| * (MinTotal(s.venue) * 100 + UnitCost(Prices(s, powers)[0], s.venue)) <= Budget(s)
    ensures Build(s, powers).Ok?
  {
    BuyRungs(s, powers);
    FirstPrice(s, powers);
    var prices, v := Prices(s, powers), s.venue;
    var per := Share(s, |prices|);
    ShareCoversEqualParts(s, |prices|, MinTotal(v) * 100 + UnitCost(prices[0], v));
    SizedKeepsPrices(s, prices);
    BuildsIffEveryRungIsValid(s, powers);
    hide Build, Sized, Share, Prices, Budget, QuantityFor, OrderSizeValid, MinQuantity, MinTotal, UnitCost, Spaced, Valid;
    forall i | 0 <= i < |prices|
      ensures OrderSizeValid(Sized(s, prices)[i].quantity, Sized(s, prices)[i].price, v)
    {
      MarginCoversMinimum(per, prices[i], prices[0], v);
      MinQuantityIsThreshold(QuantityFor(per, prices[i], v), prices[i], v);
      MinQuantityIsThreshold(Sized(s, prices)[i].quantity, prices[i], v);
    }
  }

  lemma MarginCoversMinimum(per: nat, price: nat, dearest: nat, v: Venue)
    requires v.IsUpbit() && 0 < price <= dearest && MinTotal(v) * 100 + UnitCost(dearest, v) <= per
    ensures OrderSizeValid(QuantityFor(per, price, v), price, v)
  {
    var quantity := QuantityFor(per, price, v);
    MulKeepsOrder(price, dearest, 100);
    ShareBounds(per, price, v);
    assert Amount(price, quantity, v) == quantity * price * 100;
    CeilingIsThreshold(MinTotal(v), price, quantity);
    MinQuantityIsThreshold(quantity, price, v);
  }

  // ---------- The split improves the fill ----------

  ghost function SumPrice(rungs: seq<Rung>): nat {
    if rungs == [] then 0 else SumPrice(rungs[..|rungs| - 1]) + rungs[|rungs| - 1].price
  }

  ghost function SumProduct(rungs: seq<Rung>): nat {
    if rungs == [] then 0 else SumProduct(rungs[..|rungs| - 1]) + rungs[|rungs| - 1].price * rungs[|rungs| - 1].quantity
  }

  ghost predicate Rising(rungs: seq<Rung>) {
    forall i, j | 0 <= i <= j < |rungs| :: rungs[i].price <= rungs[j].price
  }

  lemma CrossExpands(p: int, q: int, a: int, b: int)
    ensures (p - a) * (q - b) == p * q - a * q - b * p + a * b
  {
  }

  lemma SignOfProduct(x: int, y: int)
    requires y <= 0
    ensures x <= 0 ==> 0 <= x * y
    ensures 0 <= x ==> x * y <= 0
  {
  }

  lemma {:induction false} CrossTerms(rungs: seq<Rung>, a: nat, b: nat, rising: bool)
    requires forall i | 0 <= i < |rungs| :: rungs[i].quantity <= b && if rising then rungs[i].price <= a else a <= rungs[i].price
    ensures var cross := SumProduct(rungs) - a * TotalQuantity(rungs) - b * SumPrice(rungs) + |rungs| * (a * b);
      if rising then 0 <= cross else cross <= 0
  {
    if rungs != [] {
      var n := |rungs| - 1;
      var r := rungs[n];
      CrossTerms(rungs[..n], a, b, rising);
      SignOfProduct(r.price - a, r.quantity - b);
      CrossStep(n, SumProduct(rungs[..n]), SumPrice(rungs[..n]), TotalQuantity(rungs[..n]), r.price, r.quantity, a, b);
    }
  }

  lemma CrossStep(n: int, product: int, price: int, quantity: int, p: int, q: int, a: int, b: int)
    ensures (product + p * q) - a * (quantity + q) - b * (price + p) + (n + 1) * (a * b)
         == (product - a * quantity - b * price + n * (a * b)) + (p - a) * (q - b)
  {
    CrossExpands(p, q, a, b);
    Distribute(n, a * b);
    assert a * (quantity + q) == a * quantity + a * q;
    assert b * (price + p) == b * price + b * p;
  }

  /** Chebyshev's sum inequality over the rungs. */
  lemma {:induction false} Chebyshev(rungs: seq<Rung>, rising: bool)
    requires Growing(rungs) && if rising then Rising(rungs) else Falling(rungs)
    ensures if rising then SumPrice(rungs) * TotalQuantity(rungs) <= |rungs| * SumProduct(rungs)
            else |rungs| * SumProduct(rungs) <= SumPrice(rungs) * TotalQuantity(rungs)
  {
    if rungs != [] {
      var n := |rungs| - 1;
      var head, a, b := rungs[..n], rungs[n].price, rungs[n].quantity;
      Chebyshev(head, rising);
      CrossTerms(head, a, b, rising);
      ChebyshevStep(n, SumProduct(head), SumPrice(head), TotalQuantity(head), a, b);
    }
  }

  lemma ChebyshevStep(n: nat, product: nat, price: nat, quantity: nat, a: nat, b: nat)
    ensures (n + 1) * (product + a * b) - (price + a) * (quantity + b)
         == (n * product - price * quantity) + (product - a * quantity - b * price + n * (a * b))
  {
    Distribute(n, product + a * b);
    assert n * (product + a * b) == n * product + n * (a * b);
    assert (price + a) * (quantity + b) == price * quantity + price * b + a * quantity + a * b;
  }

  /**
    A built buy pays, and a built sell earns, an average price at least as good as the plain mean of its rung
    prices: n times the sum of price by quantity, against the sum of prices times the sum of quantities.
  */
  lemma SplitImprovesTheFill(s: Spec, powers: Powers)
    requires Build(s, powers).Ok? && Spaced(s, powers)
    ensures var rungs := Build(s, powers).value.rungs;
      if s.side == Sell then SumPrice(rungs) * TotalQuantity(rungs) <= |rungs| * SumProduct(rungs)
      else |rungs| * SumProduct(rungs) <= SumPrice(rungs) * TotalQuantity(rungs)
  {
    hide Build, Spaced, SumPrice, SumProduct, TotalQuantity, Growing, Rising, Falling;
    BuiltRungsGrow(s, powers);
    Chebyshev(Build(s, powers).value.rungs, s.side == Sell);
  }

  /** Prices move away from the base, and quantities never decrease with them. */
  lemma BuiltRungsGrow(s: Spec, powers: Powers)
    requires Build(s, powers).Ok? && Spaced(s, powers)
    ensures var rungs := Build(s, powers).value.rungs;
      Growing(rungs) && if s.side == Sell then Rising(rungs) else Falling(rungs)
  {
    BuildShape(s, powers);
    hide Build, Spaced, Sized, Prices, Bounds, PriceTick;
    FirstPrice(s, powers);
    if s.side == Sell {
      SellConservesQuantity(s, Prices(s, powers));
      hide TotalQuantity;
    } else {
      BuyRungs(s, powers);
    }
  }

  // ---------- Claims that are only nearly true ----------

  lemma TwoRungsAmount(a: Rung, b: Rung, v: Venue)
    ensures TotalAmount([a, b], v) == RungAmount(a, v) + RungAmount(b, v)
  {
    assert [a, b][..1] == [a] && [a][..0] == [];
    assert TotalAmount([], v) == 0;
    assert TotalAmount([a], v) == RungAmount(a, v);
  }

  lemma TwoTicks(a: real, b: real, v: Venue, mode: Rounding)
    requires 0 < PriceTick(b, v, mode) < PriceTick(a, v, mode)
    ensures Snap([a, b], v, mode) == [PriceTick(a, v, mode), PriceTick(b, v, mode)]
  {
    var ticks := [PriceTick(a, v, mode), PriceTick(b, v, mode)];
    assert Ticked([a, b], v, mode) == ticks;
    assert ticks[..1] == [ticks[0]] && ticks[..1][..0] == [];
    assert Compact([ticks[0]]) == [ticks[0]];
  }

  /** A request for two rungs that snap apart gets just the two snapped bounds. */
  lemma TwoRungPrices(s: Spec, powers: Powers)
    requires s.rungs == 2
    requires var mode := s.side.Rounding(); 0 < PriceTick(Bounds(s).1, s.venue, mode) < PriceTick(Bounds(s).0, s.venue, mode)
    ensures var mode := s.side.Rounding();
      Prices(s, powers) == [PriceTick(Bounds(s).0, s.venue, mode), PriceTick(Bounds(s).1, s.venue, mode)]
  {
    var (start, end) := Bounds(s);
    assert Geometric(start, end, 2, powers) == [start, end];
    hide PriceTick, Bounds;
    TwoTicks(start, end, s.venue, s.side.Rounding());
  }

  lemma PairBuilds(s: Spec, powers: Powers, first: Rung, second: Rung)
    requires Valid(s) && Prices(s, powers) == [first.price, second.price]
    requires 0 < first.price && 0 < second.price && Sized(s, [first.price, second.price]) == [first, second]
    requires OrderSizeValid(first.quantity, first.price, s.venue) && OrderSizeValid(second.quantity, second.price, s.venue)
    ensures Build(s, powers).Ok? && Build(s, powers).value.spec == s && Build(s, powers).value.rungs == [first, second]
  {
    var rungs := [first, second];
    assert rungs[..2] == rungs && rungs[..1] == [first] && rungs[..1][..0] == [];
    hide Prices, Sized, Valid, OrderSizeValid;
    assert FirstTooSmall([first], s.venue) == 1;
    assert FirstTooSmall(rungs, s.venue) == 2;
  }

  /**
    Rounding a share half away from zero can spend more than Total: two Toss rungs at 5 and 2.5 out of
    9.999999999999999999 cost 10.
  */
  lemma BuyCanExceedTotal()
    ensures var s := Spec(Toss, "A", Buy, 500_000_000.0, 0.0, 0.5, 2, 9_999_999_999_999_999_999, 0.0);
      Build(s, i => 1.0).Ok? && !CommitsWithinTotal(Build(s, i => 1.0).value)
  {
    var s := Spec(Toss, "A", Buy, 500_000_000.0, 0.0, 0.5, 2, 9_999_999_999_999_999_999, 0.0);
    assert Valid(s) && Bounds(s) == (500_000_000.0, 250_000_000.0);
    assert PriceTick(500_000_000.0, Toss, RoundDown) == 500_000_000;
    assert PriceTick(250_000_000.0, Toss, RoundDown) == 250_000_000;
    hide PriceTick, Bounds, Valid, Build, Prices, Sized, TotalAmount;
    TwoRungPrices(s, i => 1.0);
    TossOverspend(s);
    PairBuilds(s, i => 1.0, Rung(0, 500_000_000, 1), Rung(1, 250_000_000, 2));
  }

  lemma TossOverspend(s: Spec)
    requires Valid(s) && s.venue == Toss && s.side == Buy && s.total == 9_999_999_999_999_999_999 && s.fee == 0.0
    ensures Sized(s, [500_000_000, 250_000_000]) == [Rung(0, 500_000_000, 1), Rung(1, 250_000_000, 2)]
    ensures s.total < TotalAmount(Sized(s, [500_000_000, 250_000_000]), Toss)
  {
    var per := Share(s, 2);
    assert per == 5_000_000_000_000_000_000;
    var split := EvenCash([500_000_000, 250_000_000], per, Toss);
    assert split == [Rung(0, 500_000_000, 1), Rung(1, 250_000_000, 2)];
    TwoRungsAmount(split[0], split[1], Toss);
    SpendOutConservesCash(split, Budget(s) - TotalAmount(split, Toss), Toss);
  }

  /**
    MaxRungs can name a count that Build refuses for an Upbit buy: with 10000 won over 100000 and 90000 it names
    two rungs, and the second is worth 4999.9995 won.
  */
  lemma MaxRungsCanBeRefused()
    ensures var s := Spec(Upbit, "KRW-A", Buy, 10_000_000_000_000.0, 0.0, 0.1, 2, 10_000_000_000_000_000_000_000, 0.0);
      && Valid(s) && MaxRungs(s) == 2 && |Prices(s, i => 1.0)| == 2
      && Build(s, i => 1.0) == Err(TooSmall(1, 2))
  {
    var s := Spec(Upbit, "KRW-A", Buy, 10_000_000_000_000.0, 0.0, 0.1, 2, 10_000_000_000_000_000_000_000, 0.0);
    assert ValidSymbol(Upbit, "KRW-A") by {
      assert "KRW" + "-" == "KRW-";
      assert "KRW-" <= "KRW-A";
    }
    assert Geometric(Bounds(s).0, Bounds(s).1, 2, i => 1.0) == [10_000_000_000_000.0, 9_000_000_000_000.0];
    assert TickSize(10_000_000_000_000.0, Upbit) == 10_000_000_000;
    assert TickSize(9_000_000_000_000.0, Upbit) == 5_000_000_000 by {
      assert StepFor(KRW_TICKS.below.below.below, 9_000_000_000_000.0) == 5_000_000_000;
      assert StepFor(KRW_TICKS.below, 9_000_000_000_000.0) == 5_000_000_000;
    }
    assert PriceTick(10_000_000_000_000.0, Upbit, RoundDown) == 10_000_000_000_000;
    assert PriceTick(9_000_000_000_000.0, Upbit, RoundDown) == 9_000_000_000_000;
    TwoTicks(10_000_000_000_000.0, 9_000_000_000_000.0, Upbit, RoundDown);
    UpbitSecondRungTooSmall(s);
    UpbitMaxRungs(s);
  }

  lemma UpbitMaxRungs(s: Spec)
    requires s.venue == Upbit && s.side == Buy && s.total == 10_000_000_000_000_000_000_000 && s.fee == 0.0 && 0.0 < s.base
    requires PriceTick(Bounds(s).0, Upbit, RoundDown) == 10_000_000_000_000
    ensures MaxRungs(s) == 2
  {
    assert MinQuantity(10_000_000_000_000, Upbit) == 5_000_000;
    assert Amount(10_000_000_000_000, 5_000_000, Upbit) == 5_000_000_000_000_000_000_000;
  }

  lemma UpbitSecondRungTooSmall(s: Spec)
    requires Valid(s) && s.venue == Upbit && s.side == Buy && s.total == 10_000_000_000_000_000_000_000 && s.fee == 0.0
    ensures Sized(s, [10_000_000_000_000, 9_000_000_000_000])
         == [Rung(0, 10_000_000_000_000, 5_000_000), Rung(1, 9_000_000_000_000, 5_555_555)]
    ensures FirstTooSmall(Sized(s, [10_000_000_000_000, 9_000_000_000_000]), Upbit) == 1
  {
    var per := Share(s, 2);
    assert per == 5_000_000_000_000_000_000_000;
    var split := EvenCash([10_000_000_000_000, 9_000_000_000_000], per, Upbit);
    assert split == [Rung(0, 10_000_000_000_000, 5_000_000), Rung(1, 9_000_000_000_000, 5_555_555)];
    TwoRungsAmount(split[0], split[1], Upbit);
    var cash := Budget(s) - TotalAmount(split, Upbit);
    assert cash == 500_000_000_000_000;
    TooDearToBuy(split, 2, cash, Upbit);
    assert OrderSizeValid(split[0].quantity, split[0].price, Upbit);
    assert !OrderSizeValid(split[1].quantity, split[1].price, Upbit);
  }
}
