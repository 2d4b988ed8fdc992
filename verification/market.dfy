/**
  The trading rules of each venue (internal/market/market.go): price ticks, quantity units, minimum order
  sizes and symbol shapes.

  Decimals are scaled integers.
  - A price on a tick grid is a count of 10^-8, the smallest tick of any venue. A price that is not yet
    snapped is a real number on the same scale.
  - A quantity is a count of the venue's unit: one share on Toss, 10^-8 of a coin on Upbit.
  - Cash is a count of 10^-18, the working precision of the ladder and of the DECIMAL(36,18) columns.
*/
module Market {
  import opened Arithmetic

  datatype Venue = Toss | Upbit | UpbitUsdt {
    predicate IsUpbit() {
      this == Upbit || this == UpbitUsdt
    }
  }

  datatype Side = Buy | Sell {
    function Rounding(): Rounding {
      if this == Sell then RoundUp else RoundDown
    }
  }

  datatype Rounding = RoundDown | RoundUp

  // ---------- Tick grids ----------

  /** A tick table read from the highest tier down. The first tier whose lower bound the price reaches wins. */
  datatype Tiers = Lowest(base: nat) | Tier(from: nat, step: nat, below: Tiers)

  // Powers of ten on the price scale: CENT is 0.01 and so on.
  const ONE := 100_000_000
  const TENTH := 10_000_000
  const CENT := 1_000_000
  const MILLI := 100_000
  const TEN_THOUSANDTH := 10_000

  const KRW_TICKS :=
    Tier(1_000_000 * ONE, 1_000 * ONE,
    Tier(500_000 * ONE, 500 * ONE,
    Tier(100_000 * ONE, 100 * ONE,
    Tier(50_000 * ONE, 50 * ONE,
    Tier(10_000 * ONE, 10 * ONE,
    Tier(5_000 * ONE, 5 * ONE,
    Tier(100 * ONE, ONE,
    Tier(10 * ONE, TENTH,
    Tier(ONE, CENT,
    Tier(TENTH, MILLI,
    Tier(CENT, TEN_THOUSANDTH,
    Tier(MILLI, 1_000,
    Tier(TEN_THOUSANDTH, 100,
    Tier(1_000, 10,
    Lowest(1)))))))))))))))

  const USDT_TICKS :=
    Tier(10 * ONE, CENT,
    Tier(ONE, MILLI,
    Tier(TENTH, TEN_THOUSANDTH,
    Tier(CENT, 1_000,
    Tier(MILLI, 100,
    Tier(TEN_THOUSANDTH, 10,
    Lowest(1)))))))

  const TOSS_TICKS := Tier(ONE, CENT, Lowest(TEN_THOUSANDTH))

  function Ticks(v: Venue): Tiers {
    match v
    case Toss => TOSS_TICKS
    case Upbit => KRW_TICKS
    case UpbitUsdt => USDT_TICKS
  }

  function StepFor(tiers: Tiers, price: real): nat {
    match tiers
    case Lowest(base) => base
    case Tier(from, step, below) => if price >= from as real then step else StepFor(below, price)
  }

  /** The price increment the venue accepts around price. */
  function TickSize(price: real, v: Venue): nat {
    StepFor(Ticks(v), price)
  }

  /** price.QuoRem(step, 0) truncates, and on a whole step that is the quotient of the whole part. */
  function Snapped(price: real, step: nat, mode: Rounding): int
    requires 0 < step
  {
    var quotient := price.Floor / step;
    if mode == RoundUp && (quotient * step) as real != price then (quotient + 1) * step else quotient * step
  }

  /** Snaps price onto the venue's tick grid. A price that is not positive snaps to zero. */
  function PriceTick(price: real, v: Venue, mode: Rounding): nat {
    if price <= 0.0 then 0
    else
      StepIsPositive(Ticks(v), price);
      TicksFit(v);
      SnappedIsNear(price, TickSize(price, v), mode);
      Snapped(price, TickSize(price, v), mode)
  }

  /** A price the exchange accepts: positive and a whole number of the tick that applies at that very price. */
  ghost predicate OnGrid(price: nat, v: Venue) {
    0 < price && Fits(Ticks(v), price)
  }

  ghost predicate Fits(tiers: Tiers, price: nat) {
    0 < StepFor(tiers, price as real) && price % StepFor(tiers, price as real) == 0
  }

  /** Tier bounds fall, and each bound is a whole number of ticks seen from either side of it. */
  ghost predicate Staircase(tiers: Tiers) {
    match tiers
    case Lowest(base) => 0 < base
    case Tier(from, step, below) =>
      && 0 < step && 0 < from
      && from % step == 0
      && 0 < TopStep(below) && from % TopStep(below) == 0
      && (below.Tier? ==> below.from < from)
      && Staircase(below)
  }

  function TopStep(tiers: Tiers): nat {
    match tiers
    case Lowest(base) => base
    case Tier(_, step, _) => step
  }

  lemma TicksFit(v: Venue)
    ensures Staircase(Ticks(v))
  {
    match v
    case Toss =>
    case Upbit =>
      assert Staircase(KRW_TICKS.below.below.below.below.below.below.below.below.below.below);
      assert Staircase(KRW_TICKS.below.below.below.below.below.below);
      assert Staircase(KRW_TICKS.below.below.below.below);
      assert Staircase(KRW_TICKS.below.below);
    case UpbitUsdt =>
      assert Staircase(USDT_TICKS.below.below.below);
  }

  lemma StepIsPositive(tiers: Tiers, price: real)
    ensures Staircase(tiers) ==> 0 < StepFor(tiers, price)
  {
  }

  lemma SnappedIsNear(price: real, step: nat, mode: Rounding)
    requires 0 < step && 0.0 < price
    ensures 0 <= Snapped(price, step, mode)
    ensures Snapped(price, step, mode) % step == 0
    ensures mode == RoundDown ==> Snapped(price, step, mode) as real <= price < (Snapped(price, step, mode) + step) as real
    ensures mode == RoundUp ==> (Snapped(price, step, mode) - step) as real < price <= Snapped(price, step, mode) as real
  {
    var quotient := price.Floor / step;
    var low := quotient * step;
    assert low <= price.Floor < low + step;
    assert (quotient + 1) * step == low + step;
    MultipleHasNoRemainder(quotient, step);
    MultipleHasNoRemainder(quotient + 1, step);
  }

  // ---------- Snapping is exact across tier bounds ----------

  /** The lower bound of the tier that price falls in. */
  ghost function TierFloor(tiers: Tiers, price: real): nat {
    match tiers
    case Lowest(_) => 0
    case Tier(from, _, below) => if price >= from as real then from else TierFloor(below, price)
  }

  /** The bound where the next tier up begins, or zero when price is in the highest tier. */
  ghost function NextFrom(tiers: Tiers, price: real): nat {
    match tiers
    case Lowest(_) => 0
    case Tier(from, _, below) =>
      if price >= from as real then 0
      else if NextFrom(below, price) == 0 then from
      else NextFrom(below, price)
  }

  ghost predicate InTierOf(tiers: Tiers, price: real, other: real) {
    && TierFloor(tiers, price) as real <= other
    && (NextFrom(tiers, price) == 0 || other < NextFrom(tiers, price) as real)
  }

  lemma {:induction false} TierHasOneStep(tiers: Tiers, price: real, other: real)
    requires Staircase(tiers) && 0.0 < price && InTierOf(tiers, price, other)
    ensures StepFor(tiers, other) == StepFor(tiers, price)
  {
    match tiers
    case Lowest(_) =>
    case Tier(from, _, below) =>
      if price < from as real {
        NextIsBelow(below, price, from);
        TierHasOneStep(below, price, other);
      }
  }

  lemma {:induction false} NextIsBelow(tiers: Tiers, price: real, top: nat)
    requires Staircase(tiers) && 0 < top && (tiers.Tier? ==> tiers.from < top)
    ensures NextFrom(tiers, price) < top
  {
    match tiers
    case Lowest(_) =>
    case Tier(from, _, below) =>
      NextIsBelow(below, price, from);
  }

  lemma {:induction false} TierBounds(tiers: Tiers, price: real)
    requires Staircase(tiers) && 0.0 < price
    ensures 0 < StepFor(tiers, price)
    ensures TierFloor(tiers, price) as real <= price
    ensures TierFloor(tiers, price) % StepFor(tiers, price) == 0
    ensures var next := NextFrom(tiers, price);
            next != 0 ==> price < next as real && next % StepFor(tiers, price) == 0 && Fits(tiers, next)
    ensures NextFrom(tiers, price) == 0 ==> StepFor(tiers, price) == TopStep(tiers)
  {
    match tiers
    case Lowest(_) =>
    case Tier(from, _, below) =>
      if price < from as real {
        NextIsBelow(below, price, from);
        TierBounds(below, price);
      }
  }

  /** Rounding up gives the least price the exchange accepts that is not below the one asked for. */
  lemma TickUpIsLeast(price: real, v: Venue)
    requires 0.0 < price
    ensures var tick := PriceTick(price, v, RoundUp);
            && OnGrid(tick, v)
            && price <= tick as real
            && forall g: nat | OnGrid(g, v) && price <= g as real :: tick <= g
  {
    TicksFit(v);
    TierBounds(Ticks(v), price);
    var step, next := TickSize(price, v), NextFrom(Ticks(v), price);
    var tick := PriceTick(price, v, RoundUp);
    SnappedIsNear(price, step, RoundUp);
    if next != 0 {
      MultiplesAreSpaced(tick, next, step);
    }
    if next == 0 || tick < next {
      TierHasOneStep(Ticks(v), price, tick as real);
    }
    forall g: nat | OnGrid(g, v) && price <= g as real
      ensures tick <= g
    {
      if next == 0 || g < next {
        TierHasOneStep(Ticks(v), price, g as real);
        MultiplesAreSpaced(tick, g, step);
      }
    }
  }

  /** Rounding down gives the greatest price the exchange accepts that is not above the one asked for, or zero. */
  lemma TickDownIsGreatest(price: real, v: Venue)
    requires 0.0 < price
    ensures var tick := PriceTick(price, v, RoundDown);
            && (tick == 0 || OnGrid(tick, v))
            && tick as real <= price
            && forall g: nat | OnGrid(g, v) && g as real <= price :: g <= tick
  {
    TicksFit(v);
    TierBounds(Ticks(v), price);
    var step, floor := TickSize(price, v), TierFloor(Ticks(v), price);
    var tick := PriceTick(price, v, RoundDown);
    SnappedIsNear(price, step, RoundDown);
    MultiplesAreSpaced(floor, tick, step);
    TierHasOneStep(Ticks(v), price, tick as real);
    forall g: nat | OnGrid(g, v) && g as real <= price
      ensures g <= tick
    {
      if floor <= g {
        TierHasOneStep(Ticks(v), price, g as real);
        MultiplesAreSpaced(g, tick, step);
      }
    }
  }

  /** Snapping in either direction keeps order, and zero marks a price with nothing on the grid below it. */
  lemma TickIsMonotone(low: real, high: real, v: Venue, mode: Rounding)
    requires low <= high
    ensures PriceTick(low, v, mode) <= PriceTick(high, v, mode)
  {
    if 0.0 < low {
      match mode
      case RoundUp =>
        TickUpIsLeast(low, v);
        TickUpIsLeast(high, v);
      case RoundDown =>
        TickDownIsGreatest(low, v);
        TickDownIsGreatest(high, v);
    }
  }

  /** The grid is exactly the set of prices that snapping leaves alone, whichever way it rounds. */
  lemma GridIsFixedPoints(price: nat, v: Venue, mode: Rounding)
    requires 0 < price
    ensures PriceTick(price as real, v, mode) == price <==> OnGrid(price, v)
  {
    TickUpIsLeast(price as real, v);
    TickDownIsGreatest(price as real, v);
  }

  // ---------- Quantities and order sizes ----------

  /** Units in one whole share or coin, on the 10^-18 scale: RoundQuantity divides by it. */
  function UnitSize(v: Venue): nat {
    if v.IsUpbit() then 10_000_000_000 else 1_000_000_000_000_000_000
  }

  /** Truncates a quantity, given in 10^-18, to whole units of the venue. */
  function RoundQuantity(quantity: int, v: Venue): int {
    quantity / UnitSize(v)
  }

  /** Cash, in 10^-18, that one 10^-8 of price adds to the cost of one unit. */
  function CashScale(v: Venue): nat {
    if v.IsUpbit() then 100 else 10_000_000_000
  }

  /** Cash, in 10^-18, of quantity units at price. */
  function Amount(price: nat, quantity: nat, v: Venue): nat {
    price * quantity * CashScale(v)
  }

  function UnitCost(price: nat, v: Venue): (cost: nat)
    ensures 0 < price ==> 0 < cost
  {
    price * CashScale(v)
  }

  /** The smallest order amount an Upbit market accepts, in 10^-16. Toss has none. */
  function MinTotal(v: Venue): nat {
    match v
    case Toss => 0
    case Upbit => 50_000_000_000_000_000_000
    case UpbitUsdt => 5_000_000_000_000_000
  }

  predicate OrderSizeValid(quantity: int, price: int, v: Venue) {
    && 0 < quantity && 0 < price
    && if v.IsUpbit() then MinTotal(v) <= quantity * price else 1 <= quantity
  }

  /** The smallest quantity that forms a valid order at price: an exact ceiling on Upbit, one share on Toss. */
  function MinQuantity(price: nat, v: Venue): nat {
    if !v.IsUpbit() then 1 else if price == 0 then 0 else CeilingOf(MinTotal(v), price)
  }

  function CeilingOf(total: nat, price: nat): nat
    requires 0 < price
  {
    if total % price != 0 then total / price + 1 else total / price
  }

  /** The largest quantity that amount buys at price. */
  function QuantityFor(amount: int, price: nat, v: Venue): nat {
    if amount <= 0 || price == 0 then 0
    else
      QuotientBounds(amount, UnitCost(price, v));
      amount / UnitCost(price, v)
  }

  lemma CeilingIsThreshold(total: nat, price: nat, quantity: int)
    requires 0 < price
    ensures CeilingOf(total, price) <= quantity <==> total <= quantity * price
  {
    QuotientBounds(total, price);
    if CeilingOf(total, price) <= quantity {
      MulKeepsOrder(CeilingOf(total, price), quantity, price);
    } else {
      MulKeepsOrder(quantity, CeilingOf(total, price) - 1, price);
    }
  }

  /** MinQuantity is the exact threshold of OrderSizeValid. */
  lemma MinQuantityIsThreshold(quantity: int, price: nat, v: Venue)
    requires 0 < price
    ensures 0 < MinQuantity(price, v)
    ensures OrderSizeValid(quantity, price, v) <==> MinQuantity(price, v) <= quantity
  {
    if v.IsUpbit() {
      CeilingIsThreshold(MinTotal(v), price, quantity);
      CeilingIsThreshold(MinTotal(v), price, 0);
    }
  }

  /** QuantityFor buys as much as the amount allows and never spends more than it. */
  lemma QuantityForIsGreatest(amount: int, price: nat, v: Venue, quantity: nat)
    requires 0 < price && 0 <= amount
    ensures quantity <= QuantityFor(amount, price, v) <==> Amount(price, quantity, v) <= amount
  {
    QuotientIsGreatest(amount, UnitCost(price, v), quantity);
    AmountIsUnits(price, quantity, v);
  }

  lemma AmountIsUnits(price: nat, quantity: nat, v: Venue)
    ensures Amount(price, quantity, v) == quantity * UnitCost(price, v)
  {
  }

  /** A dearer price never needs a larger minimum quantity. */
  lemma MinQuantityFalls(low: nat, high: nat, v: Venue)
    requires 0 < low <= high
    ensures MinQuantity(high, v) <= MinQuantity(low, v)
  {
    var quantity := MinQuantity(low, v);
    MinQuantityIsThreshold(quantity, low, v);
    MinQuantityIsThreshold(quantity, high, v);
    MulKeepsOrder(low, high, quantity);
  }

  /** Splits value units into n parts: one part, and what did not divide evenly. */
  function Divide(value: int, n: int): (int, int) {
    if n <= 0 || value <= 0 then (0, 0) else (value / n, value - value / n * n)
  }

  // ---------- Symbols ----------

  predicate IsUpperAlnum(c: char) {
    'A' <= c <= 'Z' || '0' <= c <= '9'
  }

  /** ^(?:KRW|USDT)-[A-Z0-9]{1,16}$ for one currency. */
  predicate IsPair(symbol: string, currency: string) {
    var prefix := currency + "-";
    && prefix <= symbol
    && 1 <= |symbol| - |prefix| <= 16
    && forall i | |prefix| <= i < |symbol| :: IsUpperAlnum(symbol[i])
  }

  /** ^[A-Z][A-Z0-9.\-]{0,23}$ */
  predicate IsTicker(symbol: string) {
    && 1 <= |symbol| <= 24
    && 'A' <= symbol[0] <= 'Z'
    && forall i | 1 <= i < |symbol| :: IsUpperAlnum(symbol[i]) || symbol[i] == '.' || symbol[i] == '-'
  }

  predicate ValidSymbol(v: Venue, symbol: string) {
    match v
    case Toss => IsTicker(symbol) && !IsPair(symbol, "KRW") && !IsPair(symbol, "USDT")
    case Upbit => IsPair(symbol, "KRW")
    case UpbitUsdt => IsPair(symbol, "USDT")
  }

  /** A symbol names its venue: no symbol is valid on two of them. */
  lemma SymbolNamesOneVenue(symbol: string, v: Venue, u: Venue)
    requires ValidSymbol(v, symbol) && ValidSymbol(u, symbol)
    ensures v == u
  {
    var krw, usdt := "KRW" + "-", "USDT" + "-";
    assert krw[0] != usdt[0];
  }

  // ---------- Fixed points of the tables ----------

  // The tick on either side of each bound, prices and ticks on the 10^-8 scale.

  lemma KrwTickBoundaries()
    ensures
      && TickSize(100_000_000_000_000.0, Upbit) == 100_000_000_000 && TickSize(99_999_900_000_000.0, Upbit) == 50_000_000_000
      && TickSize(50_000_000_000_000.0, Upbit) == 50_000_000_000 && TickSize(49_999_900_000_000.0, Upbit) == 10_000_000_000
      && TickSize(10_000_000_000_000.0, Upbit) == 10_000_000_000 && TickSize(9_999_900_000_000.0, Upbit) == 5_000_000_000
      && TickSize(5_000_000_000_000.0, Upbit) == 5_000_000_000 && TickSize(4_999_900_000_000.0, Upbit) == 1_000_000_000
      && TickSize(1_000_000_000_000.0, Upbit) == 1_000_000_000 && TickSize(999_900_000_000.0, Upbit) == 500_000_000
      && TickSize(500_000_000_000.0, Upbit) == 500_000_000 && TickSize(499_900_000_000.0, Upbit) == 100_000_000
      && TickSize(10_000_000_000.0, Upbit) == 100_000_000 && TickSize(9_990_000_000.0, Upbit) == 10_000_000
      && TickSize(1_000_000_000.0, Upbit) == 10_000_000 && TickSize(999_000_000.0, Upbit) == 1_000_000
  {
  }

  lemma KrwPennyTickBoundaries()
    ensures
      && TickSize(100_000_000.0, Upbit) == 1_000_000 && TickSize(99_000_000.0, Upbit) == 100_000
      && TickSize(10_000_000.0, Upbit) == 100_000 && TickSize(9_900_000.0, Upbit) == 10_000
      && TickSize(1_000_000.0, Upbit) == 10_000 && TickSize(990_000.0, Upbit) == 1_000
      && TickSize(100_000.0, Upbit) == 1_000 && TickSize(99_000.0, Upbit) == 100
      && TickSize(10_000.0, Upbit) == 100 && TickSize(9_900.0, Upbit) == 10
      && TickSize(1_000.0, Upbit) == 10 && TickSize(990.0, Upbit) == 1
      && TickSize(100.0, Upbit) == 1
  {
    KrwPennyTiers(100_000_000.0);
    KrwPennyTiers(99_000_000.0);
    KrwPennyTiers(10_000_000.0);
    KrwPennyTiers(9_900_000.0);
    KrwPennyTiers(1_000_000.0);
    KrwPennyTiers(990_000.0);
    KrwPennyTiers(100_000.0);
    KrwPennyTiers(99_000.0);
    KrwPennyTiers(10_000.0);
    KrwPennyTiers(9_900.0);
    KrwPennyTiers(1_000.0);
    KrwPennyTiers(990.0);
    KrwPennyTiers(100.0);
  }

  lemma KrwPennyTiers(price: real)
    requires price < 1_000_000_000.0
    ensures TickSize(price, Upbit) == StepFor(KRW_TICKS.below.below.below.below.below.below.below.below, price)
  {
    assert StepFor(KRW_TICKS, price) == StepFor(KRW_TICKS.below, price);
    assert StepFor(KRW_TICKS.below, price) == StepFor(KRW_TICKS.below.below, price);
    assert StepFor(KRW_TICKS.below.below, price) == StepFor(KRW_TICKS.below.below.below, price);
    assert StepFor(KRW_TICKS.below.below.below, price) == StepFor(KRW_TICKS.below.below.below.below, price);
    assert StepFor(KRW_TICKS.below.below.below.below, price) == StepFor(KRW_TICKS.below.below.below.below.below, price);
    assert StepFor(KRW_TICKS.below.below.below.below.below, price) == StepFor(KRW_TICKS.below.below.below.below.below.below, price);
    assert StepFor(KRW_TICKS.below.below.below.below.below.below, price) == StepFor(KRW_TICKS.below.below.below.below.below.below.below, price);
    assert StepFor(KRW_TICKS.below.below.below.below.below.below.below, price) == StepFor(KRW_TICKS.below.below.below.below.below.below.below.below, price);
  }

  lemma UsdtTickBoundaries()
    ensures
      && TickSize(1_000_000_000.0, UpbitUsdt) == 1_000_000 && TickSize(999_000_000.0, UpbitUsdt) == 100_000
      && TickSize(100_000_000.0, UpbitUsdt) == 100_000 && TickSize(99_000_000.0, UpbitUsdt) == 10_000
      && TickSize(10_000_000.0, UpbitUsdt) == 10_000 && TickSize(9_900_000.0, UpbitUsdt) == 1_000
      && TickSize(1_000_000.0, UpbitUsdt) == 1_000 && TickSize(990_000.0, UpbitUsdt) == 100
      && TickSize(100_000.0, UpbitUsdt) == 100 && TickSize(99_000.0, UpbitUsdt) == 10
      && TickSize(10_000.0, UpbitUsdt) == 10 && TickSize(9_900.0, UpbitUsdt) == 1
      && TickSize(1_000.0, UpbitUsdt) == 1
  {
  }

  lemma TossTickBoundaries()
    ensures
      && TickSize(51_234_000_000.0, Toss) == 1_000_000 && TickSize(100_000_000.0, Toss) == 1_000_000
      && TickSize(99_000_000.0, Toss) == 10_000
  {
  }

  /** An amount is price times quantity: 10^-8 of a price and a unit of the venue, both brought to the 10^-18 scale. */
  lemma AmountIsPriceTimesQuantity(price: nat, quantity: nat, v: Venue)
    ensures Amount(price, quantity, v) * ONE == price * (quantity * UnitSize(v))
  {
    assert CashScale(v) * ONE == UnitSize(v);
    assert price * quantity * CashScale(v) * ONE == price * (quantity * (CashScale(v) * ONE));
  }

  /** The smallest order is worth 5000 won or half a dollar on Upbit, and is one share on Toss. */
  lemma SmallestOrders(quantity: nat, price: nat, v: Venue)
    ensures OrderSizeValid(quantity, price, v) <==>
      && 0 < price
      && match v
         case Toss => 1 <= quantity
         case Upbit => 5_000_000_000_000_000_000_000 <= Amount(price, quantity, v)
         case UpbitUsdt => 500_000_000_000_000_000 <= Amount(price, quantity, v)
  {
  }

  /** Symbols that are valid, and ones that are not: another venue's, an unsupported market's, or misspelt. */
  lemma SomeSymbols()
    ensures ValidSymbol(Upbit, "KRW-BTC") && ValidSymbol(UpbitUsdt, "USDT-SOL") && ValidSymbol(Toss, "BRK.B") && ValidSymbol(Toss, "QQQ")
    ensures !ValidSymbol(Upbit, "USDT-SOL") && !ValidSymbol(UpbitUsdt, "KRW-SOL") && !ValidSymbol(Upbit, "BTC-SOL")
    ensures !ValidSymbol(Toss, "KRW-BTC") && !ValidSymbol(Toss, "USDT-SOL") && !ValidSymbol(Toss, "aapl") && !ValidSymbol(Toss, "")
  {
    assert "BTC-SOL"[0] != ("KRW" + "-")[0] && "USDT-SOL"[0] != ("KRW" + "-")[0];
    assert IsPair("KRW-BTC", "KRW") && IsPair("USDT-SOL", "USDT");
  }

  // ---------- The adapters' own gates ----------

  /** What orderBody (Upbit) and Place (Toss) check before a request may leave. */
  predicate Submittable(v: Venue, symbol: string, quantity: int, price: int) {
    && ValidSymbol(v, symbol)
    && OrderSizeValid(quantity, price, v)
    && 0 < price && price == PriceTick(price as real, v, RoundDown)
  }

  /** The adapters let through exactly a valid symbol, at a price on the venue's grid, in an order that is large enough. */
  lemma GateIff(v: Venue, symbol: string, quantity: int, price: nat)
    ensures Submittable(v, symbol, quantity, price) <==>
      ValidSymbol(v, symbol) && OnGrid(price, v) && MinQuantity(price, v) <= quantity
  {
    if 0 < price {
      GridIsFixedPoints(price, v, RoundDown);
      MinQuantityIsThreshold(quantity, price, v);
    }
    hide PriceTick, Fits, MinQuantity, ValidSymbol;
  }
}
