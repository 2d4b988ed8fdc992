/**
  One "spread my order across a price range" request turned into exact limit orders (internal/ladder/ladder.go).

  The functions are the specification; the methods below them are the loops of the source, each proved to
  compute its function.
*/
module Ladder {
  import opened Arithmetic
  import opened Market
  import opened Wrappers

  const MAX_RUNGS := 50

  /**
    One request. Total is cash or a quantity, in 10^-18. Base is a price on the 10^-8 scale. The offsets and
    the fee are fractions.
  */
  datatype Spec = Spec(
    venue: Venue, symbol: string, side: Side,
    base: real, startPct: real, endPct: real,
    rungs: int, total: int, fee: real)

  datatype Rung = Rung(index: nat, price: nat, quantity: nat)

  datatype Plan = Plan(spec: Spec, start: nat, end: nat, rungs: seq<Rung>, requested: int)

  datatype BuildError = Invalid | NoPrices | TooSmall(index: nat, maxRungs: int)

  /** The results of math.Pow(ratio, i/(n-1)) for the interior rungs: floating point, so an input here. */
  type Powers = int -> real

  // ---------- The request ----------

  /** The cash a buy may turn into order amounts, truncated so it can never round up past Total. */
  function Budget(s: Spec): int {
    if s.side != Buy || s.fee <= 0.0 then s.total else (s.total as real / (1.0 + s.fee)).Floor
  }

  function Bounds(s: Spec): (real, real) {
    if s.side == Sell
    then (s.base * (1.0 + s.startPct), s.base * (1.0 + s.endPct))
    else (s.base * (1.0 - s.startPct), s.base * (1.0 - s.endPct))
  }

  predicate Valid(s: Spec) {
    && ValidSymbol(s.venue, s.symbol)
    && 0.0 < s.base
    && 0.0 <= s.startPct < s.endPct
    && (s.side == Buy ==> s.endPct < 1.0)
    && 1 <= s.rungs <= MAX_RUNGS
    && 0 < s.total
    && 0.0 <= s.fee
  }

  /** How many rungs the budget or holding can carry, judged by the rung nearest the base price. */
  function MaxRungs(s: Spec): int {
    if s.base <= 0.0 || s.total <= 0 then 0
    else
      var start := PriceTick(Bounds(s).0, s.venue, s.side.Rounding());
      if start == 0 then 0
      else
        var need := MinQuantity(start, s.venue);
        if need == 0 then 0
        else
          MinQuantityIsThreshold(need, start, s.venue);
          NeedIsPositive(start, need, s.venue);
          var count :=
            if s.side == Buy then Budget(s) / Amount(start, need, s.venue)
            else RoundQuantity(Budget(s), s.venue) / need;
          if count < MAX_RUNGS then count else MAX_RUNGS
  }

  lemma NeedIsPositive(price: nat, need: nat, v: Venue)
    requires 0 < price && 0 < need
    ensures 0 < Amount(price, need, v)
  {
    AmountIsUnits(price, need, v);
    MulKeepsOrder(1, need, UnitCost(price, v));
  }

  // ---------- Prices ----------

  /** Prices from start to end. The endpoints are exact; only the interior goes through floating point. */
  function Geometric(start: real, end: real, n: int, powers: Powers): (prices: seq<real>)
    ensures |prices| == if n <= 1 then 1 else n
  {
    if n <= 1 then [start]
    else seq(n, i requires 0 <= i < n => if i == 0 then start else if i == n - 1 then end else start * powers(i))
  }

  function Ticked(raw: seq<real>, v: Venue, mode: Rounding): (ticks: seq<nat>)
    ensures |ticks| == |raw|
  {
    seq(|raw|, i requires 0 <= i < |raw| => PriceTick(raw[i], v, mode))
  }

  /** Drops zeros, and repeats of the price kept just before. */
  function Compact(ticks: seq<nat>): (kept: seq<nat>)
    ensures |kept| <= |ticks|
    ensures forall i | 0 <= i < |kept| :: 0 < kept[i]
  {
    if ticks == [] then []
    else
      var kept, tick := Compact(ticks[..|ticks| - 1]), ticks[|ticks| - 1];
      if tick == 0 || (kept != [] && kept[|kept| - 1] == tick) then kept else kept + [tick]
  }

  /** Every price on the venue's tick grid, with merged rungs dropped. */
  function Snap(raw: seq<real>, v: Venue, mode: Rounding): (prices: seq<nat>)
    ensures |prices| <= |raw|
    ensures forall i | 0 <= i < |prices| :: 0 < prices[i]
  {
    Compact(Ticked(raw, v, mode))
  }

  function Prices(s: Spec, powers: Powers): (prices: seq<nat>)
    ensures forall i | 0 <= i < |prices| :: 0 < prices[i]
  {
    Snap(Geometric(Bounds(s).0, Bounds(s).1, s.rungs, powers), s.venue, s.side.Rounding())
  }

  // ---------- Sizes ----------

  function TotalQuantity(rungs: seq<Rung>): nat {
    if rungs == [] then 0 else TotalQuantity(rungs[..|rungs| - 1]) + rungs[|rungs| - 1].quantity
  }

  function RungAmount(r: Rung, v: Venue): nat {
    Amount(r.price, r.quantity, v)
  }

  function TotalAmount(rungs: seq<Rung>, v: Venue): nat {
    if rungs == [] then 0 else TotalAmount(rungs[..|rungs| - 1], v) + RungAmount(rungs[|rungs| - 1], v)
  }

  function OneMore(r: Rung): Rung {
    r.(quantity := r.quantity + 1)
  }

  /** Leftover units, one each, from the far end inwards; the rungs from i on have been visited. */
  function HandOut(rungs: seq<Rung>, i: nat, leftover: int): (out: seq<Rung>)
    requires i <= |rungs|
    ensures |out| == |rungs|
    decreases i
  {
    if i == 0 || leftover < 1 then rungs
    else HandOut(rungs[i - 1 := OneMore(rungs[i - 1])], i - 1, leftover - 1)
  }

  datatype Spread = Spread(rungs: seq<Rung>, cash: int)

  /** One pass from the far end inwards, buying one unit wherever the cash still allows it. */
  function Pass(rungs: seq<Rung>, i: nat, cash: int, v: Venue): (out: Spread)
    requires i <= |rungs|
    ensures |out.rungs| == |rungs| && out.cash <= cash
    decreases i
  {
    if i == 0 then Spread(rungs, cash)
    else
      var cost := UnitCost(rungs[i - 1].price, v);
      if cost > cash then Pass(rungs, i - 1, cash, v)
      else Pass(rungs[i - 1 := OneMore(rungs[i - 1])], i - 1, cash - cost, v)
  }

  function FullPass(rungs: seq<Rung>, cash: int, v: Venue): (out: Spread)
    ensures |out.rungs| == |rungs| && out.cash <= cash
  {
    Pass(rungs, |rungs|, cash, v)
  }

  predicate Priced(rungs: seq<Rung>) {
    forall i | 0 <= i < |rungs| :: 0 < rungs[i].price
  }

  /** Passes until one of them can afford nothing. */
  function SpendOut(rungs: seq<Rung>, cash: int, v: Venue): (out: Spread)
    requires Priced(rungs)
    ensures |out.rungs| == |rungs|
    decreases if cash < 0 then 0 else cash
  {
    PassKeepsShape(rungs, |rungs|, cash, v);
    var out := FullPass(rungs, cash, v);
    if out.cash == cash then out else SpendOut(out.rungs, out.cash, v)
  }

  ghost predicate SamePrices(a: seq<Rung>, b: seq<Rung>) {
    |a| == |b| && forall i | 0 <= i < |a| :: a[i].index == b[i].index && a[i].price == b[i].price
  }

  lemma {:induction false} PassKeepsShape(rungs: seq<Rung>, i: nat, cash: int, v: Venue)
    requires i <= |rungs|
    ensures SamePrices(rungs, Pass(rungs, i, cash, v).rungs)
    ensures 0 <= cash ==> 0 <= Pass(rungs, i, cash, v).cash
    ensures cash < 0 ==> Pass(rungs, i, cash, v) == Spread(rungs, cash)
    decreases i
  {
    if i != 0 {
      var cost := UnitCost(rungs[i - 1].price, v);
      if cost > cash {
        PassKeepsShape(rungs, i - 1, cash, v);
      } else {
        PassKeepsShape(rungs[i - 1 := OneMore(rungs[i - 1])], i - 1, cash - cost, v);
      }
    }
  }

  function EvenQuantity(prices: seq<nat>, each: nat): (rungs: seq<Rung>)
    ensures |rungs| == |prices|
  {
    seq(|prices|, i requires 0 <= i < |prices| => Rung(i, prices[i], each))
  }

  function EvenCash(prices: seq<nat>, per: int, v: Venue): (rungs: seq<Rung>)
    ensures |rungs| == |prices|
  {
    seq(|prices|, i requires 0 <= i < |prices| => Rung(i, prices[i], QuantityFor(per, prices[i], v)))
  }

  /** DivRound on a budget that is not negative: half rounds away from zero. */
  function DivRound(a: nat, n: nat): nat
    requires 0 < n
  {
    QuotientBounds(2 * a + n, 2 * n);
    (2 * a + n) / (2 * n)
  }

  function Sized(s: Spec, prices: seq<nat>): (rungs: seq<Rung>)
    requires Valid(s) && prices != [] && forall i | 0 <= i < |prices| :: 0 < prices[i]
    ensures |rungs| == |prices|
  {
    if s.side == Sell then
      RoundQuantityIsNat(s.total, s.venue);
      var (each, leftover) := Divide(RoundQuantity(s.total, s.venue), |prices|);
      QuotientBounds(RoundQuantity(s.total, s.venue), |prices|);
      HandOut(EvenQuantity(prices, each), |prices|, leftover)
    else
      BudgetIsNat(s);
      var split := EvenCash(prices, DivRound(Budget(s), |prices|), s.venue);
      SpendOut(split, Budget(s) - TotalAmount(split, s.venue), s.venue).rungs
  }

  lemma RoundQuantityIsNat(quantity: int, v: Venue)
    requires 0 <= quantity
    ensures 0 <= RoundQuantity(quantity, v)
  {
  }

  lemma BudgetIsNat(s: Spec)
    requires 0 <= s.total && 0.0 <= s.fee
    ensures 0 <= Budget(s)
    ensures Budget(s) as real * (1.0 + s.fee) <= s.total as real || s.side == Sell
  {
    if s.side == Buy && 0.0 < s.fee {
      var share := s.total as real / (1.0 + s.fee);
      assert share * (1.0 + s.fee) == s.total as real;
      if share < 0.0 {
        assert share * (1.0 + s.fee) < 0.0;
      }
      assert share.Floor as real <= share;
    }
  }

  /** The first rung that is too small to submit, or the number of rungs when none is. */
  function FirstTooSmall(rungs: seq<Rung>, v: Venue): (k: nat)
    ensures k <= |rungs|
    ensures forall i | 0 <= i < k :: OrderSizeValid(rungs[i].quantity, rungs[i].price, v)
    ensures k < |rungs| ==> !OrderSizeValid(rungs[k].quantity, rungs[k].price, v)
  {
    if rungs == [] then 0
    else
      var k := FirstTooSmall(rungs[..|rungs| - 1], v);
      if k < |rungs| - 1 then k
      else if OrderSizeValid(rungs[k].quantity, rungs[k].price, v) then |rungs| else k
  }

  function Size(s: Spec, prices: seq<nat>): Result<seq<Rung>, BuildError>
    requires Valid(s) && prices != [] && forall i | 0 <= i < |prices| :: 0 < prices[i]
  {
    var rungs := Sized(s, prices);
    var k := FirstTooSmall(rungs, s.venue);
    if k < |rungs| then Err(TooSmall(rungs[k].index, MaxRungs(s))) else Ok(rungs)
  }

  function Build(s: Spec, powers: Powers): Result<Plan, BuildError> {
    if !Valid(s) then Err(Invalid)
    else
      var prices := Prices(s, powers);
      if prices == [] then Err(NoPrices)
      else
        match Size(s, prices)
        case Err(e) => Err(e)
        case Ok(rungs) => Ok(Plan(s, prices[0], prices[|prices| - 1], rungs, s.rungs))
  }

  /** What the venue takes out of the account, in 10^-18: the quantity on a sell, cash and commission on a buy. */
  function Commitment(p: Plan): real {
    if p.spec.side == Sell then (TotalQuantity(p.rungs) * UnitSize(p.spec.venue)) as real
    else TotalAmount(p.rungs, p.spec.venue) as real * (1.0 + p.spec.fee)
  }

  // ---------- The loops of the source ----------

  method GeometricPrices(start: real, end: real, n: int, powers: Powers) returns (out: array<real>)
    ensures fresh(out) && out[..] == Geometric(start, end, n, powers)
  {
    if n <= 1 {
      out := new real[1](_ => start);
      assert out[..] == [start];
      return;
    }
    out := new real[n](_ => 0.0);
    out[0] := start;
    out[n - 1] := end;
    for i := 1 to n - 1
      invariant out[0] == start && out[n - 1] == end
      invariant forall j | 1 <= j < i :: out[j] == start * powers(j)
    {
      out[i] := start * powers(i);
    }
    ghost var spaced := Geometric(start, end, n, powers);
    assert forall j | 0 <= j < n :: out[..][j] == spaced[j];
  }

  /** The prices kept after the first i. */
  ghost function SnapUpTo(raw: seq<real>, v: Venue, mode: Rounding, i: nat): seq<nat>
    requires i <= |raw|
  {
    Compact(Ticked(raw, v, mode)[..i])
  }

  lemma SnapNext(raw: seq<real>, v: Venue, mode: Rounding, i: nat)
    requires i < |raw|
    ensures var kept, tick := SnapUpTo(raw, v, mode, i), PriceTick(raw[i], v, mode);
      SnapUpTo(raw, v, mode, i + 1) ==
        if tick == 0 || (kept != [] && kept[|kept| - 1] == tick) then kept else kept + [tick]
  {
    hide PriceTick;
    assert Ticked(raw, v, mode)[..i + 1][..i] == Ticked(raw, v, mode)[..i];
  }

  lemma SnapAll(raw: seq<real>, v: Venue, mode: Rounding)
    ensures SnapUpTo(raw, v, mode, 0) == [] && SnapUpTo(raw, v, mode, |raw|) == Snap(raw, v, mode)
  {
    hide PriceTick;
    assert Ticked(raw, v, mode)[..|raw|] == Ticked(raw, v, mode);
  }

  method SnapPrices(raw: array<real>, v: Venue, mode: Rounding) returns (out: seq<nat>)
    ensures out == Snap(raw[..], v, mode)
  {
    hide PriceTick, SnapUpTo, Snap;
    SnapAll(raw[..], v, mode);
    out := [];
    for i := 0 to raw.Length
      invariant out == SnapUpTo(raw[..], v, mode, i)
    {
      SnapNext(raw[..], v, mode, i);
      var tick := PriceTick(raw[i], v, mode);
      if tick == 0 {
        continue;
      }
      if |out| > 0 && out[|out| - 1] == tick {
        continue;
      }
      out := out + [tick];
    }
  }

  method SpreadQuantity(rungs: array<Rung>, remainder: int)
    modifies rungs
    ensures rungs[..] == HandOut(old(rungs[..]), rungs.Length, remainder)
  {
    var leftover := remainder;
    var i := rungs.Length;
    while 0 < i && 1 <= leftover
      invariant 0 <= i <= rungs.Length
      invariant HandOut(old(rungs[..]), rungs.Length, remainder) == HandOut(rungs[..], i, leftover)
      decreases i
    {
      i := i - 1;
      rungs[i] := OneMore(rungs[i]);
      leftover := leftover - 1;
    }
  }

  method SpreadCash(rungs: array<Rung>, unspent: int, v: Venue)
    requires Priced(rungs[..])
    modifies rungs
    ensures rungs[..] == SpendOut(old(rungs[..]), unspent, v).rungs
  {
    var cash := unspent;
    var bought := true;
    while bought
      invariant Priced(rungs[..])
      invariant bought ==> SpendOut(old(rungs[..]), unspent, v) == SpendOut(rungs[..], cash, v)
      invariant !bought ==> SpendOut(old(rungs[..]), unspent, v) == Spread(rungs[..], cash)
      decreases bought, if cash < 0 then 0 else cash
    {
      ghost var before, start := rungs[..], cash;
      PassKeepsShape(before, |before|, start, v);
      bought := false;
      var i := rungs.Length;
      while 0 < i
        invariant 0 <= i <= rungs.Length
        invariant Priced(rungs[..])
        invariant FullPass(before, start, v) == Pass(rungs[..], i, cash, v)
        invariant cash <= start && (bought <==> cash != start)
      {
        i := i - 1;
        assert rungs[i] == rungs[..][i];
        var cost := UnitCost(rungs[i].price, v);
        if cost > cash {
          continue;
        }
        rungs[i] := OneMore(rungs[i]);
        cash, bought := cash - cost, true;
      }
    }
  }

  method SumQuantity(rungs: array<Rung>) returns (sum: nat)
    ensures sum == TotalQuantity(rungs[..])
  {
    sum := 0;
    for i := 0 to rungs.Length
      invariant sum == TotalQuantity(rungs[..i])
    {
      assert rungs[..i + 1][..i] == rungs[..i];
      sum := sum + rungs[i].quantity;
    }
    assert rungs[..rungs.Length] == rungs[..];
  }

  method SplitQuantity(s: Spec, rungs: array<Rung>, prices: seq<nat>)
    requires Valid(s) && s.side == Sell && prices != [] && forall i | 0 <= i < |prices| :: 0 < prices[i]
    requires rungs[..] == EvenQuantity(prices, 0)
    modifies rungs
    ensures rungs[..] == Sized(s, prices)
  {
    RoundQuantityIsNat(s.total, s.venue);
    var total := RoundQuantity(s.total, s.venue);
    var (each, leftover) := Divide(total, rungs.Length);
    QuotientBounds(total, rungs.Length);
    ghost var blank, even := rungs[..], EvenQuantity(prices, each);
    for i := 0 to rungs.Length
      invariant rungs[..i] == even[..i] && rungs[i..] == blank[i..]
    {
      assert rungs[i] == rungs[i..][0] == blank[i];
      rungs[i] := rungs[i].(quantity := each);
      assert rungs[..i + 1] == rungs[..i] + [rungs[i]] && even[..i + 1] == even[..i] + [even[i]];
      assert rungs[i + 1..] == blank[i..][1..];
    }
    assert rungs[..] == even;
    SpreadQuantity(rungs, leftover);
  }

  method SplitCash(s: Spec, rungs: array<Rung>, prices: seq<nat>)
    requires Valid(s) && s.side == Buy && prices != [] && forall i | 0 <= i < |prices| :: 0 < prices[i]
    requires rungs[..] == EvenQuantity(prices, 0)
    modifies rungs
    ensures rungs[..] == Sized(s, prices)
  {
    BudgetIsNat(s);
    var budget := Budget(s);
    var per := DivRound(budget, rungs.Length);
    var spent := 0;
    ghost var blank, split := rungs[..], EvenCash(prices, per, s.venue);
    for i := 0 to rungs.Length
      invariant rungs[..i] == split[..i] && rungs[i..] == blank[i..]
      invariant spent == TotalAmount(split[..i], s.venue)
    {
      assert rungs[i] == rungs[i..][0] == blank[i];
      rungs[i] := rungs[i].(quantity := QuantityFor(per, rungs[i].price, s.venue));
      spent := spent + RungAmount(rungs[i], s.venue);
      assert rungs[..i + 1] == rungs[..i] + [rungs[i]] && split[..i + 1] == split[..i] + [split[i]];
      assert rungs[i + 1..] == blank[i..][1..];
      assert split[..i + 1][..i] == split[..i];
    }
    assert rungs[..] == split == split[..rungs.Length];
    SpreadCash(rungs, budget - spent, s.venue);
  }

  method SizeRungs(s: Spec, prices: seq<nat>) returns (out: Result<seq<Rung>, BuildError>)
    requires Valid(s) && prices != [] && forall i | 0 <= i < |prices| :: 0 < prices[i]
    ensures out == Size(s, prices)
  {
    var n := |prices|;
    var rungs := new Rung[n](i requires 0 <= i < n => Rung(i, prices[i], 0));
    if s.side == Sell {
      SplitQuantity(s, rungs, prices);
    } else {
      SplitCash(s, rungs, prices);
    }
    for i := 0 to n
      invariant forall j | 0 <= j < i :: OrderSizeValid(rungs[..][j].quantity, rungs[..][j].price, s.venue)
    {
      if !OrderSizeValid(rungs[i].quantity, rungs[i].price, s.venue) {
        return Err(TooSmall(rungs[i].index, MaxRungs(s)));
      }
    }
    out := Ok(rungs[..]);
  }

  method BuildPlan(s: Spec, powers: Powers) returns (plan: Result<Plan, BuildError>)
    ensures plan == Build(s, powers)
  {
    if !Valid(s) {
      return Err(Invalid);
    }
    var (start, end) := Bounds(s);
    var raw := GeometricPrices(start, end, s.rungs, powers);
    var prices := SnapPrices(raw, s.venue, s.side.Rounding());
    if prices == [] {
      return Err(NoPrices);
    }
    var sized := SizeRungs(s, prices);
    match sized
    case Err(e) => plan := Err(e);
    case Ok(rungs) => plan := Ok(Plan(s, prices[0], prices[|prices| - 1], rungs, s.rungs));
  }
}
