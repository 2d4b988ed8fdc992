/** The exact conditions for the claims about ladders that are only nearly true. */
module LadderExact {
  import opened Arithmetic
  import opened Market
  import opened Wrappers
  import opened Ladder
  import opened LadderTheorems
  import opened LadderBounds

  // ---------- Who gets a leftover unit ----------

  lemma {:induction false} PassSkipsDear(rungs: seq<Rung>, j: nat, cash: int, v: Venue, i: nat)
    requires j <= |rungs| && i < |rungs| && cash < UnitCost(rungs[i].price, v)
    ensures Pass(rungs, j, cash, v).rungs[i] == rungs[i]
    decreases j
  {
    if j != 0 {
      var cost := UnitCost(rungs[j - 1].price, v);
      if cost > cash {
        PassSkipsDear(rungs, j - 1, cash, v, i);
      } else {
        PassSkipsDear(rungs[j - 1 := OneMore(rungs[j - 1])], j - 1, cash - cost, v, i);
      }
    }
  }

  /** A rung dearer than all the cash there is stays as it is, however many passes follow. */
  lemma {:induction false} DearRungIsUntouched(rungs: seq<Rung>, cash: int, v: Venue, i: nat)
    requires Priced(rungs) && i < |rungs| && cash < UnitCost(rungs[i].price, v)
    ensures SpendOut(rungs, cash, v).rungs[i] == rungs[i]
    decreases if cash < 0 then 0 else cash
  {
    var out := FullPass(rungs, cash, v);
    PassSkipsDear(rungs, |rungs|, cash, v, i);
    PassKeepsShape(rungs, |rungs|, cash, v);
    if out.cash != cash {
      DearRungIsUntouched(out.rungs, out.cash, v, i);
    }
  }

  lemma {:induction false} PassNeverShrinks(rungs: seq<Rung>, j: nat, cash: int, v: Venue, i: nat)
    requires j <= |rungs| && i < |rungs|
    ensures rungs[i].quantity <= Pass(rungs, j, cash, v).rungs[i].quantity
    decreases j
  {
    if j != 0 {
      var cost := UnitCost(rungs[j - 1].price, v);
      if cost > cash {
        PassNeverShrinks(rungs, j - 1, cash, v, i);
      } else {
        PassNeverShrinks(rungs[j - 1 := OneMore(rungs[j - 1])], j - 1, cash - cost, v, i);
      }
    }
  }

  lemma {:induction false} SpendOutNeverShrinks(rungs: seq<Rung>, cash: int, v: Venue, i: nat)
    requires Priced(rungs) && i < |rungs|
    ensures rungs[i].quantity <= SpendOut(rungs, cash, v).rungs[i].quantity
    decreases if cash < 0 then 0 else cash
  {
    var out := FullPass(rungs, cash, v);
    PassNeverShrinks(rungs, |rungs|, cash, v, i);
    PassKeepsShape(rungs, |rungs|, cash, v);
    if out.cash != cash {
      SpendOutNeverShrinks(out.rungs, out.cash, v, i);
    }
  }

  /** What one unit on each rung from i outwards costs. */
  ghost function CostFrom(rungs: seq<Rung>, i: nat, v: Venue): int
    requires i <= |rungs|
  {
    PassCost(rungs, |rungs|, v) - PassCost(rungs, i, v)
  }

  lemma {:induction false} CostFromFalls(rungs: seq<Rung>, i: nat, j: nat, v: Venue)
    requires i <= j <= |rungs|
    ensures PassCost(rungs, i, v) <= PassCost(rungs, j, v)
  {
    if i < j {
      PassCostGrows(rungs, i, j, v);
    }
  }

  lemma NearerThanServed(rungs: seq<Rung>, i: nat, k: nat, cash: int, left: int, v: Venue)
    requires Falling(rungs) && i < k <= |rungs|
    requires left == cash - CostFrom(rungs, k, v) && left < UnitCost(rungs[k - 1].price, v)
    ensures cash < CostFrom(rungs, i, v) && left < UnitCost(rungs[i].price, v)
  {
    assert PassCost(rungs, k, v) == PassCost(rungs, k - 1, v) + UnitCost(rungs[k - 1].price, v);
    hide PassCost, UnitCost, Falling;
    CostFromFalls(rungs, i, k - 1, v);
    DearerNearer(rungs, i, k - 1, v);
  }

  /** One pass serves exactly the rungs that it can serve together with everything beyond them; the others are left too dear. */
  lemma FirstPassGives(rungs: seq<Rung>, cash: int, v: Venue, i: nat)
    requires Priced(rungs) && Falling(rungs) && i < |rungs|
    ensures var out := FullPass(rungs, cash, v);
      if CostFrom(rungs, i, v) <= cash then out.rungs[i] == OneMore(rungs[i])
      else out.rungs[i] == rungs[i] && out.cash < UnitCost(rungs[i].price, v)
  {
    hide PassCost, UnitCost, Falling, Priced, Pass;
    var k := PassIsSuffix(rungs, |rungs|, cash, v);
    var out := FullPass(rungs, cash, v);
    assert out.rungs[i] == if k <= i then OneMore(rungs[i]) else rungs[i];
    PassKeepsShape(rungs, |rungs|, cash, v);
    PassOfNothing(rungs, cash, v);
    hide FullPass, AddBetween;
    if i < k {
      NearerThanServed(rungs, i, k, cash, out.cash, v);
    } else {
      CostFromFalls(rungs, k, i, v);
    }
  }

  lemma PassOfNothing(rungs: seq<Rung>, cash: int, v: Venue)
    ensures cash < 0 ==> FullPass(rungs, cash, v) == Spread(rungs, cash)
  {
    PassKeepsShape(rungs, |rungs|, cash, v);
  }

  /** On falling prices a rung gets a leftover unit exactly when the cash buys one on it and on every rung beyond. */
  lemma GetsAUnitIff(rungs: seq<Rung>, cash: int, v: Venue, i: nat)
    requires Priced(rungs) && Falling(rungs) && i < |rungs|
    ensures rungs[i].quantity < SpendOut(rungs, cash, v).rungs[i].quantity <==> CostFrom(rungs, i, v) <= cash
  {
    var out := FullPass(rungs, cash, v);
    FirstPassGives(rungs, cash, v, i);
    PassKeepsShape(rungs, |rungs|, cash, v);
    hide FullPass, CostFrom, UnitCost, Falling;
    if out.cash != cash {
      if CostFrom(rungs, i, v) <= cash {
        SpendOutNeverShrinks(out.rungs, out.cash, v, i);
      } else {
        DearRungIsUntouched(out.rungs, out.cash, v, i);
      }
    }
  }

  lemma DearerNearer(rungs: seq<Rung>, i: nat, j: nat, v: Venue)
    requires Falling(rungs) && i <= j < |rungs|
    ensures UnitCost(rungs[j].price, v) <= UnitCost(rungs[i].price, v)
  {
    MulKeepsOrder(rungs[j].price, rungs[i].price, CashScale(v));
  }

  // ---------- When a buy builds ----------

  /** The even split of a buy, before anything is left over. */
  ghost function EvenSplit(s: Spec, prices: seq<nat>): seq<Rung>
    requires Valid(s) && prices != []
  {
    EvenCash(prices, Share(s, |prices|), s.venue)
  }

  /** What the even split leaves of the budget: negative only by the dust of rounding the share up. */
  ghost function Leftover(s: Spec, prices: seq<nat>): int
    requires Valid(s) && prices != []
  {
    Budget(s) - TotalAmount(EvenSplit(s, prices), s.venue)
  }

  /** The share alone makes rung i large enough, or the leftover reaches it. */
  ghost predicate Carried(s: Spec, prices: seq<nat>, i: nat)
    requires Valid(s) && i < |prices|
  {
    || FirstNeed(s, prices[i]) <= Share(s, |prices|)
    || CostFrom(EvenSplit(s, prices), i, s.venue) <= Leftover(s, prices)
  }

  /** Where the share covers the minimum at one price, it is at most one unit short of it at any other. */
  lemma OneUnitShort(per: nat, price: nat, other: nat, v: Venue)
    requires 0 < price && 0 < other && Amount(other, MinQuantity(other, v), v) <= per
    ensures MinQuantity(price, v) <= QuantityFor(per, price, v) + 1
  {
    if v.IsUpbit() {
      var need := MinQuantity(other, v);
      CeilingIsThreshold(MinTotal(v), other, need);
      assert Amount(other, need, v) == need * other * 100;
      if 1 < MinQuantity(price, v) {
        var short := MinQuantity(price, v) - 1;
        CeilingIsThreshold(MinTotal(v), price, short);
        assert Amount(price, short, v) == short * price * 100;
        QuantityForIsGreatest(per, price, v, short);
      }
    }
  }

  /** A rung is large enough exactly when the share or the leftover carries it. */
  lemma RungIsValidIff(s: Spec, prices: seq<nat>, i: nat)
    requires Valid(s) && s.side == Buy && Positive(prices) && StrictlyOutwards(prices, Buy) && i < |prices|
    requires FirstNeed(s, prices[0]) <= Share(s, |prices|)
    ensures OrderSizeValid(Sized(s, prices)[i].quantity, prices[i], s.venue) <==> Carried(s, prices, i)
  {
    var v, per, split := s.venue, Share(s, |prices|), EvenSplit(s, prices);
    var q, need := QuantityFor(per, prices[i], v), MinQuantity(prices[i], v);
    EvenCashGrows(prices, per, v);
    assert split[i].quantity == q;
    OneUnitShort(per, prices[i], prices[0], v);
    QuantityForIsGreatest(per, prices[i], v, need);
    MinQuantityIsThreshold(Sized(s, prices)[i].quantity, prices[i], v);
    assert Sized(s, prices) == SpendOut(split, Leftover(s, prices), v).rungs;
    hide Sized, EvenSplit, Leftover, Share, QuantityFor, MinQuantity, OrderSizeValid, Budget, Valid;
    SpendOutNeverShrinks(split, Leftover(s, prices), v, i);
    GetsAUnitIff(split, Leftover(s, prices), v, i);
  }

  /** Every rung of a buy holds all that its own even share of the budget buys. */
  lemma EveryRungGetsItsShare(s: Spec, prices: seq<nat>, i: nat)
    requires Valid(s) && s.side == Buy && Positive(prices) && i < |prices|
    ensures Share(s, |prices|) < Amount(prices[i], Sized(s, prices)[i].quantity + 1, s.venue)
  {
    var v, per, split := s.venue, Share(s, |prices|), EvenSplit(s, prices);
    BudgetIsNat(s);
    SpendOutNeverShrinks(split, Leftover(s, prices), v, i);
    assert Sized(s, prices) == SpendOut(split, Leftover(s, prices), v).rungs;
    QuantityForIsGreatest(per, prices[i], v, Sized(s, prices)[i].quantity + 1);
    hide Sized, SpendOut, Amount, Budget, QuantityFor;
  }

  /** On a buy the rung nearest the base gets its share and nothing more. */
  lemma FirstRungIsValidIff(s: Spec, powers: Powers)
    requires Valid(s) && s.side == Buy && Spaced(s, powers) && Prices(s, powers) != []
    ensures var prices := Prices(s, powers);
      OrderSizeValid(Sized(s, prices)[0].quantity, prices[0], s.venue) <==> FirstNeed(s, prices[0]) <= Share(s, |prices|)
  {
    BuyRungs(s, powers);
    var prices := Prices(s, powers);
    MinQuantityIsThreshold(Sized(s, prices)[0].quantity, prices[0], s.venue);
    QuantityForIsGreatest(Share(s, |prices|), prices[0], s.venue, MinQuantity(prices[0], s.venue));
  }

  /**
    Exactly when a buy builds: its share covers the minimum order at the rung nearest the base, and every other rung is
    carried by the share or by a unit of the leftover.
  */
  lemma BuyBuildsIff(s: Spec, powers: Powers)
    requires Valid(s) && s.side == Buy && Spaced(s, powers)
    ensures var prices := Prices(s, powers);
      Build(s, powers).Ok? <==>
        prices != [] && FirstNeed(s, prices[0]) <= Share(s, |prices|) && forall i | 0 <= i < |prices| :: Carried(s, prices, i)
  {
    var prices := Prices(s, powers);
    if prices == [] {
      return;
    }
    FirstPrice(s, powers);
    FirstRungIsValidIff(s, powers);
    BuildsIffEveryRungIsValid(s, powers);
    SizedKeepsPrices(s, prices);
    hide Prices, Build, Sized, Spaced, Carried, OrderSizeValid, Bounds;
    if FirstNeed(s, prices[0]) <= Share(s, |prices|) {
      forall i | 0 <= i < |prices|
        ensures OrderSizeValid(Sized(s, prices)[i].quantity, prices[i], s.venue) <==> Carried(s, prices, i)
      {
        RungIsValidIff(s, prices, i);
      }
    }
  }

  /** On Toss a buy builds exactly when its share buys one share at the dearest price. */
  lemma TossBuyBuildsIff(s: Spec, powers: Powers)
    requires Valid(s) && s.side == Buy && s.venue == Toss && Spaced(s, powers) && Prices(s, powers) != []
    ensures Build(s, powers).Ok? <==> UnitCost(Prices(s, powers)[0], Toss) <= Share(s, |Prices(s, powers)|)
  {
    var prices := Prices(s, powers);
    FirstPrice(s, powers);
    BuyBuildsIff(s, powers);
    hide Prices, Build, Spaced, Share, UnitCost, FirstNeed, Bounds, EvenSplit, CostFrom, Leftover, Valid;
    forall i | 0 <= i < |prices|
      ensures FirstNeed(s, prices[i]) == UnitCost(prices[i], Toss) <= UnitCost(prices[0], Toss)
    {
      TossNeedsOneShare(s, prices[i], prices[0]);
    }
  }

  lemma TossNeedsOneShare(s: Spec, price: nat, dearest: nat)
    requires s.venue == Toss && price <= dearest
    ensures FirstNeed(s, price) == UnitCost(price, Toss) <= UnitCost(dearest, Toss)
  {
    MulKeepsOrder(price, dearest, CashScale(Toss));
  }

  /** A count that MaxRungs names is refused exactly when the leftover does not reach a rung that the share leaves short. */
  lemma MaxRungsHoldsIff(s: Spec, powers: Powers)
    requires Valid(s) && s.side == Buy && Spaced(s, powers) && Prices(s, powers) != []
    requires |Prices(s, powers)| <= MaxRungs(s)
    ensures var prices := Prices(s, powers);
      Build(s, powers).Ok? <==> forall i | 0 <= i < |prices| :: Carried(s, prices, i)
  {
    var prices := Prices(s, powers);
    BuyMaxRungs(s, powers);
    BuyBuildsIff(s, powers);
    hide Prices, Build, Spaced, MaxRungs, Carried, FirstNeed;
    ShareCoversEqualParts(s, |prices|, FirstNeed(s, prices[0]));
  }

  // ---------- When a buy spends more than it was given ----------

  /** What the prices do not divide of so many grid units, summed. */
  ghost function Remainders(prices: seq<nat>, units: nat): nat
    requires Positive(prices)
  {
    if prices == [] then 0
    else
      var n := |prices| - 1;
      QuotientBounds(units, prices[n]);
      Remainders(prices[..n], units) + units % prices[n]
  }

  /** Dividing by a price on the grid of amounts is dividing the whole grid units. */
  lemma QuantityOfUnits(per: nat, price: nat, v: Venue)
    requires 0 < price
    ensures QuantityFor(per, price, v) == per / CashScale(v) / price
  {
    var scale, q := CashScale(v), QuantityFor(per, price, v);
    var units := per / scale;
    QuotientBounds(per, scale);
    QuotientBounds(units, price);
    var r := units / price;
    QuantityForIsGreatest(per, price, v, q);
    QuantityForIsGreatest(per, price, v, r);
    assert Amount(price, q, v) == (q * price) * scale && Amount(price, r, v) == (r * price) * scale;
    QuotientIsGreatest(per, scale, q * price);
    QuotientIsGreatest(per, scale, r * price);
    QuotientIsGreatest(units, price, q);
    QuotientIsGreatest(units, price, r);
  }

  lemma QuantityAmount(per: nat, price: nat, v: Venue)
    requires 0 < price
    ensures var units := per / CashScale(v);
      Amount(price, QuantityFor(per, price, v), v) + CashScale(v) * (units % price) == units * CashScale(v)
  {
    QuantityOfUnits(per, price, v);
    var scale := CashScale(v);
    var units := per / scale;
    var q := units / price;
    assert units == q * price + units % price;
    assert Amount(price, q, v) == (q * price) * scale;
    assert (q * price) * scale + scale * (units % price) == (q * price + units % price) * scale;
  }

  /** The even split spends all whole grid units of its shares but the remainders. */
  lemma {:induction false} EvenCashByRemainders(prices: seq<nat>, per: nat, v: Venue)
    requires Positive(prices)
    ensures var units := per / CashScale(v);
      TotalAmount(EvenCash(prices, per, v), v) + CashScale(v) * Remainders(prices, units) == |prices| * (units * CashScale(v))
  {
    if prices != [] {
      var n, units := |prices| - 1, per / CashScale(v);
      var split := EvenCash(prices, per, v);
      assert split[..n] == EvenCash(prices[..n], per, v);
      EvenCashByRemainders(prices[..n], per, v);
      QuantityAmount(per, prices[n], v);
      Distribute(n, units * CashScale(v));
      assert RungAmount(split[n], v) == Amount(prices[n], QuantityFor(per, prices[n], v), v);
      assert CashScale(v) * Remainders(prices, units)
          == CashScale(v) * Remainders(prices[..n], units) + CashScale(v) * (units % prices[n]);
    }
  }

  lemma {:induction false} NoRemainders(prices: seq<nat>, units: nat)
    requires Positive(prices)
    ensures Remainders(prices, units) == 0 <==> forall i | 0 <= i < |prices| :: units % prices[i] == 0
  {
    if prices != [] {
      var n := |prices| - 1;
      NoRemainders(prices[..n], units);
      QuotientBounds(units, prices[n]);
    }
  }

  /** The whole units of 10^-16 on Upbit, or of 10^-8 on Toss, in one share. */
  ghost function ShareUnits(s: Spec, n: nat): nat
    requires Valid(s) && 0 < n
  {
    QuotientBounds(Share(s, n), CashScale(s.venue));
    Share(s, n) / CashScale(s.venue)
  }

  /** Rounding the share up has made the shares together exceed the budget, and every price spends its share in full. */
  ghost predicate Overdrawn(s: Spec, prices: seq<nat>)
    requires Valid(s) && prices != [] && Positive(prices)
  {
    && Budget(s) < |prices| * (ShareUnits(s, |prices|) * CashScale(s.venue))
    && forall i | 0 <= i < |prices| :: ShareUnits(s, |prices|) % prices[i] == 0
  }

  /** What is handed out on top of the even split never takes a ladder over its budget. */
  lemma SplitDecides(s: Spec, prices: seq<nat>)
    requires Valid(s) && s.side == Buy && prices != [] && Positive(prices)
    ensures TotalAmount(Sized(s, prices), s.venue) <= Budget(s) <==> TotalAmount(EvenSplit(s, prices), s.venue) <= Budget(s)
  {
    var split, cash := EvenSplit(s, prices), Leftover(s, prices);
    BudgetIsNat(s);
    assert Sized(s, prices) == SpendOut(split, cash, s.venue).rungs;
    assert Priced(split);
    hide Sized, SpendOut, EvenCash, Budget, Share, TotalAmount, Priced;
    SpendOutConservesCash(split, cash, s.venue);
  }

  /** A remainder of even one unit takes back more than rounding the share up can have added. */
  lemma RemaindersOutweighDust(budget: nat, full: int, rest: nat, scale: nat, n: nat)
    requires 2 * full <= 2 * budget + n && n <= MAX_RUNGS && 100 <= scale
    ensures full - scale * rest <= budget <==> !(budget < full && rest == 0)
  {
    if 1 <= rest {
      MulKeepsOrder(1, rest, scale);
    }
  }

  /** Exactly when a given ladder costs no more than its budget. */
  lemma BuyStaysWithinBudgetIff(s: Spec, prices: seq<nat>)
    requires Valid(s) && s.side == Buy && 1 <= |prices| <= MAX_RUNGS && Positive(prices)
    ensures TotalAmount(Sized(s, prices), s.venue) <= Budget(s) <==> !Overdrawn(s, prices)
  {
    var v, n, units := s.venue, |prices|, ShareUnits(s, |prices|);
    BudgetIsNat(s);
    SplitDecides(s, prices);
    DivRoundBounds(Budget(s), n);
    assert 100 <= CashScale(v);
    hide Sized, Budget, DivRound, CashScale;
    EvenCashByRemainders(prices, Share(s, n), v);
    NoRemainders(prices, units);
    QuotientBounds(Share(s, n), CashScale(v));
    MulKeepsOrder(units * CashScale(v), Share(s, n), n);
    hide Share, EvenCash, Remainders, TotalAmount;
    RemaindersOutweighDust(Budget(s), n * (units * CashScale(v)), Remainders(prices, units), CashScale(v), n);
  }

  /** Cash with the commission on it. */
  ghost function WithFee(amount: int, fee: real): real {
    amount as real * (1.0 + fee)
  }

  lemma FeeKeepsOrder(a: int, b: int, fee: real)
    requires a <= b && 0.0 <= fee
    ensures WithFee(a, fee) <= WithFee(b, fee)
  {
    assert 0.0 <= (b - a) as real * (1.0 + fee);
  }

  lemma Scaled(a: real, b: real, rate: real)
    requires a < b && 0.0 < rate
    ensures a * rate < b * rate
  {
    assert 0.0 < (b - a) * rate;
  }

  lemma Bracketed(low: real, share: real, high: real, rate: real)
    requires low <= share < high && 0.0 < rate
    ensures low * rate <= share * rate < high * rate
  {
    Scaled(share, high, rate);
    if low < share {
      Scaled(low, share, rate);
    }
  }

  /** The budget is the largest whole amount whose commission still fits. */
  lemma BudgetIsLargest(s: Spec)
    requires s.side == Buy && 0 <= s.total && 0.0 <= s.fee
    ensures WithFee(Budget(s), s.fee) <= s.total as real < WithFee(Budget(s) + 1, s.fee)
  {
    if 0.0 < s.fee {
      var rate := 1.0 + s.fee;
      var share := s.total as real / rate;
      var low, high := Budget(s) as real, (Budget(s) + 1) as real;
      assert share * rate == s.total as real;
      Bracketed(low, share, high, rate);
    }
  }

  lemma CommitmentIsWithFee(p: Plan)
    requires p.spec.side == Buy
    ensures Commitment(p) == WithFee(TotalAmount(p.rungs, p.spec.venue), p.spec.fee)
  {
  }

  lemma CommitsMoreIff(p: Plan)
    requires p.spec.side == Buy && 0 <= p.spec.total && 0.0 <= p.spec.fee
    ensures !CommitsWithinTotal(p) <==> Budget(p.spec) < TotalAmount(p.rungs, p.spec.venue)
  {
    BudgetIsLargest(p.spec);
    CommitmentIsWithFee(p);
    var budget, amount := Budget(p.spec), TotalAmount(p.rungs, p.spec.venue);
    hide WithFee, Budget, TotalAmount, Commitment;
    if budget < amount {
      FeeKeepsOrder(budget + 1, amount, p.spec.fee);
    } else {
      FeeKeepsOrder(amount, budget, p.spec.fee);
    }
  }

  /** Exactly when a built buy, commission included, stays within its total. */
  lemma BuiltBuyIsWithinTotalIff(s: Spec, powers: Powers)
    requires Build(s, powers).Ok? && s.side == Buy
    ensures CommitsWithinTotal(Build(s, powers).value) <==> !Overdrawn(s, Prices(s, powers))
  {
    BuildShape(s, powers);
    var plan, prices := Build(s, powers).value, Prices(s, powers);
    hide Build, Prices, Sized, Budget, Overdrawn, CommitsWithinTotal;
    BuyStaysWithinBudgetIff(s, prices);
    CommitsMoreIff(plan);
  }
}
