/** Pure settlement arithmetic of the controller and of the settler. */
module Payoff {
  import opened Wrappers
  import opened Ints

  const U128_MAX: nat := 0xFFFF_FFFF_FFFF_FFFF_FFFF_FFFF_FFFF_FFFF
  const PRICE_SCALE: nat := 100_000_000
  const MAX_FEE_BPS: nat := 2000

  /** Checked multiplication in a type whose largest value is `max`. */
  function CheckedMul(a: nat, b: nat, max: nat): Result<nat> {
    if a * b <= max then Ok(a * b) else Err(MathOverflow)
  }

  /** `try_into` a 64-bit value. */
  function ToU64(x: nat): Result<u64> {
    if x <= U64_MAX then Ok(x) else Err(MathOverflow)
  }

  // ---------------------------------------------------------------- controller

  /** Collateral a vault must hold for `amount` units short. The put branch
      works in 128 bits and traps when the exponent is negative; the call branch
      works in 64 bits and traps when the power does not fit. */
  function GetRequiredCollateral(strike: u64, isPut: bool, decimals: u8, amount: u64): Result<u64> {
    if isPut then
      var numerator :- CheckedMul(amount, strike, U128_MAX);
      if decimals > 16 then Err(Trap)
      else
        QuotientNonNeg(numerator, Pow10(16 - decimals));
        ToU64(numerator / Pow10(16 - decimals))
    else if decimals >= 8 then
      if Pow10(decimals - 8) > U64_MAX then Err(Trap)
      else
        var product :- CheckedMul(amount, Pow10(decimals - 8), U64_MAX);
        Ok(product)
    else
      QuotientNonNeg(amount, Pow10(8 - decimals));
      ToU64(amount / Pow10(8 - decimals))
  }

  predicate InTheMoney(strike: nat, price: nat, isPut: bool) {
    if isPut then price < strike else price > strike
  }

  /** What `amount` oTokens redeem for: the whole collateral in the money,
      nothing otherwise. */
  function GetPayout(strike: u64, price: u64, isPut: bool, decimals: u8, amount: u64): Result<u64> {
    if isPut then
      if price >= strike then Ok(0) else GetRequiredCollateral(strike, isPut, decimals, amount)
    else
      if price <= strike then Ok(0) else GetRequiredCollateral(strike, isPut, decimals, amount)
  }

  /** The exact scale `Num / Den` behind the two branches. */
  function Num(strike: nat, isPut: bool, decimals: nat): nat {
    if isPut then strike else if decimals >= 8 then Pow10(decimals - 8) else 1
  }

  function Den(isPut: bool, decimals: nat): (d: nat)
    ensures d > 0
  {
    if isPut then (if decimals > 16 then 1 else Pow10(16 - decimals))
    else if decimals >= 8 then 1 else Pow10(8 - decimals)
  }

  /** The collateral a short of `amount` is worth, in unbounded integers. */
  function Worth(strike: nat, isPut: bool, decimals: nat, amount: nat): nat {
    var exact, d := amount * Num(strike, isPut, decimals), Den(isPut, decimals);
    QuotientNonNeg(exact, d);
    exact / d
  }

  /** The 64-bit code computes the rounded-down product exactly, and fails
      exactly when that does not fit 64 bits or the put has over 16 decimals. */
  lemma RequiredIsWorth(strike: u64, isPut: bool, decimals: u8, amount: u64)
    requires decimals <= 18
    ensures GetRequiredCollateral(strike, isPut, decimals, amount)
         == if isPut && decimals > 16 then Err(Trap)
            else if Worth(strike, isPut, decimals, amount) <= U64_MAX then Ok(Worth(strike, isPut, decimals, amount))
            else Err(MathOverflow)
  {
    if isPut {
      ProductFits128(amount, strike);
    } else if decimals >= 8 {
      Pow10Fits64(decimals - 8);
      DivideByOne(amount * Pow10(decimals - 8));
    } else {
      assert amount * 1 == amount;
    }
  }

  /** The worth in numbers: with oTokens of eight decimals, a put locks the strike
      on the amount, scaled from sixteen decimals to those of the collateral; a
      call the amount itself, scaled from eight. */
  lemma WorthInUnits(strike: nat, isPut: bool, decimals: nat, amount: nat)
    requires decimals <= 18
    ensures var w := Worth(strike, isPut, decimals, amount);
            && (isPut && decimals <= 16 ==> w * Pow10(16 - decimals) <= amount * strike < (w + 1) * Pow10(16 - decimals))
            && (!isPut && decimals >= 8 ==> w == amount * Pow10(decimals - 8))
            && (!isPut && decimals < 8 ==> w * Pow10(8 - decimals) <= amount < (w + 1) * Pow10(8 - decimals))
  {
    if isPut {
      if decimals <= 16 {
        QuotientBounds(amount * strike, Pow10(16 - decimals));
      }
    } else if decimals >= 8 {
      DivideByOne(amount * Pow10(decimals - 8));
    } else {
      assert amount * 1 == amount;
      QuotientBounds(amount, Pow10(8 - decimals));
    }
  }

  lemma ProductFits128(a: u64, b: u64)
    ensures a * b <= U128_MAX
  {
    MulMono(a, b, U64_MAX);
    MulMono(U64_MAX, a, U64_MAX);
    assert U64_MAX * U64_MAX <= U128_MAX;
  }

  lemma ScaledFloorAdd(a: nat, b: nat, n: nat, d: nat)
    requires d > 0
    ensures a * n / d + b * n / d <= (a + b) * n / d <= a * n / d + b * n / d + 1
    ensures d == 1 ==> (a + b) * n / d == a * n / d + b * n / d
  {
    assert (a + b) * n == a * n + b * n;
    FloorAdd(a * n, b * n, d);
  }

  /** Worth is superadditive, and subadditive up to one unit; exactly additive
      when the scale has no denominator. */
  lemma WorthAdd(strike: nat, isPut: bool, decimals: nat, a: nat, b: nat)
    ensures Worth(strike, isPut, decimals, a) + Worth(strike, isPut, decimals, b) <= Worth(strike, isPut, decimals, a + b)
    ensures Worth(strike, isPut, decimals, a + b) <= Worth(strike, isPut, decimals, a) + Worth(strike, isPut, decimals, b) + 1
    ensures Den(isPut, decimals) == 1 ==>
      Worth(strike, isPut, decimals, a + b) == Worth(strike, isPut, decimals, a) + Worth(strike, isPut, decimals, b)
  {
    hide Num, Den;
    ScaledFloorAdd(a, b, Num(strike, isPut, decimals), Den(isPut, decimals));
  }

  lemma WorthMono(strike: nat, isPut: bool, decimals: nat, a: nat, b: nat)
    requires a <= b
    ensures Worth(strike, isPut, decimals, a) <= Worth(strike, isPut, decimals, b)
  {
    var n, d := Num(strike, isPut, decimals), Den(isPut, decimals);
    MulMono(n, a, b);
    DivMono(a * n, b * n, d);
  }

  // ---------------------------------------------------------------- settler

  /** The strike asset a call delivers, rounded down. */
  function ContraOfCall(amount: u64, strike: u64, decimals: u8): Result<nat>
    requires decimals <= 16
  {
    var product :- CheckedMul(amount, strike, U128_MAX);
    QuotientNonNeg(product, Pow10(16 - decimals));
    Ok(product / Pow10(16 - decimals))
  }

  /** Contra asset owed to the user at physical delivery. */
  function ComputeContraAmount(amount: u64, strike: u64, isPut: bool, decimals: u8): Result<u64> {
    var wide :-
      if isPut then
        if !(8 <= decimals <= 18) then Err(UnsupportedDecimals)
        else CheckedMul(amount, Pow10(decimals - 8), U128_MAX)
      else
        if !(6 <= decimals <= 16) then Err(UnsupportedDecimals)
        else ContraOfCall(amount, strike, decimals);
    var result :- ToU64(wide);
    if result > 0 then Ok(result) else Err(ZeroAmount)
  }

  /** Delivery and collateral are dual: what a put delivers is what the call at
      the same strike locks, and the other way round, over the whole range of
      decimals delivery supports, failures included. */
  lemma ContraIsDualCollateral(amount: u64, strike: u64, isPut: bool, decimals: u8)
    ensures var supported := if isPut then 8 <= decimals <= 18 else 6 <= decimals <= 16;
            var dual := GetRequiredCollateral(strike, !isPut, decimals, amount);
            ComputeContraAmount(amount, strike, isPut, decimals)
            == if !supported then Err(UnsupportedDecimals)
               else if dual.Err? then Err(MathOverflow)
               else if dual.value == 0 then Err(ZeroAmount)
               else dual
  {
    if isPut {
      if 8 <= decimals <= 18 {
        Pow10Fits64(decimals - 8);
        ProductFits128(amount, Pow10(decimals - 8));
      }
    } else {
      ProductFits128(amount, strike);
    }
  }

  /** The contra asset in numbers, within the supported decimals and 64 bits. */
  ghost predicate Owed(amount: nat, strike: nat, isPut: bool, decimals: nat, contra: nat) {
    && 0 < contra <= 0xFFFF_FFFF_FFFF_FFFF
    && (if isPut then 8 <= decimals <= 18 && contra == amount * Pow10(decimals - 8)
        else 6 <= decimals <= 16 && contra * Pow10(16 - decimals) <= amount * strike < (contra + 1) * Pow10(16 - decimals))
  }

  lemma ContraIsOwed(amount: u64, strike: u64, isPut: bool, decimals: u8, contra: u64)
    ensures ComputeContraAmount(amount, strike, isPut, decimals) == Ok(contra) <==> Owed(amount, strike, isPut, decimals, contra)
  {
    if isPut {
      if 8 <= decimals <= 18 {
        Pow10Fits64(decimals - 8);
        ProductFits128(amount, Pow10(decimals - 8));
      }
    } else if 6 <= decimals <= 16 {
      ProductFits128(amount, strike);
      QuotientBounds(amount * strike, Pow10(16 - decimals));
      if contra * Pow10(16 - decimals) <= amount * strike < (contra + 1) * Pow10(16 - decimals) {
        Quotient(amount * strike, Pow10(16 - decimals), contra);
      }
    }
  }

  datatype Split = Split(premium: u64, fee: u64, net: u64)

  /** Premium for a fill, and its division between treasury and seller. */
  function ComputePremiumSplit(amount: u64, bidPrice: u64, feeBps: u16): Result<Split> {
    var product :- CheckedMul(amount, bidPrice, U128_MAX);
    var premium :- ToU64(product / PRICE_SCALE);
    var scaled :- CheckedMul(premium, feeBps, U64_MAX);
    var fee := scaled / BPS;
    if fee > premium then Err(MathOverflow) else Ok(Split(premium, fee, premium - fee))
  }

  /** What an order of `amount` oTokens (eight decimals) at `bidPrice` costs: the
      price of a hundred million of them is `bidPrice`, the fee is in ten-thousandths
      of the premium, both rounded down, and the rest is the seller's. */
  ghost predicate Charged(amount: nat, bidPrice: nat, feeBps: nat, split: Split) {
    && 100_000_000 * split.premium <= amount * bidPrice < 100_000_000 * split.premium + 100_000_000
    && 10_000 * split.fee <= split.premium * feeBps < 10_000 * split.fee + 10_000
    && split.premium == split.net + split.fee
  }

  lemma SplitIsCharged(amount: u64, bidPrice: u64, feeBps: u16)
    ensures var r := ComputePremiumSplit(amount, bidPrice, feeBps);
            r.Ok? ==> Charged(amount, bidPrice, feeBps, r.value)
  {
    ProductFits128(amount, bidPrice);
    QuotientBounds(amount * bidPrice, PRICE_SCALE);
    QuotientBounds(amount * bidPrice / PRICE_SCALE * feeBps, BPS);
  }

  /** Premium and fee are the exact products rounded down, and fee and net add up
      to the premium; a fee rate within the cap takes at most a fifth of it, and
      the split then fails only when the premium itself or its product with the
      rate does not fit 64 bits. */
  lemma SplitIsExact(amount: u64, bidPrice: u64, feeBps: u16)
    requires feeBps <= 2000
    ensures var r := ComputePremiumSplit(amount, bidPrice, feeBps);
            var premium := amount * bidPrice / 100_000_000;
            && (r.Ok? <==> premium * feeBps <= 0xFFFF_FFFF_FFFF_FFFF && premium <= 0xFFFF_FFFF_FFFF_FFFF)
            && (r.Ok? ==> Charged(amount, bidPrice, feeBps, r.value) && 5 * r.value.fee <= r.value.premium)
  {
    SplitIsCharged(amount, bidPrice, feeBps);
    ProductFits128(amount, bidPrice);
    var premium := amount * bidPrice / PRICE_SCALE;
    QuotientBounds(amount * bidPrice, PRICE_SCALE);
    QuotientBounds(premium * feeBps, BPS);
    MulMono(premium, feeBps, MAX_FEE_BPS);
    DivMono(premium * feeBps, premium * MAX_FEE_BPS, BPS);
    assert premium * 2000 / 10000 <= premium / 5;
  }

  ghost function Sum(xs: seq<u64>): nat {
    if xs == [] then 0 else Sum(xs[..|xs| - 1]) + xs[|xs| - 1]
  }

  /** Premium and fee totals of filling `xs` one after another at one price. */
  ghost function Premiums(xs: seq<u64>, bidPrice: u64): nat {
    if xs == [] then 0 else Premiums(xs[..|xs| - 1], bidPrice) + xs[|xs| - 1] * bidPrice / PRICE_SCALE
  }

  ghost function Fees(xs: seq<u64>, bidPrice: u64, feeBps: u16): nat {
    if xs == [] then 0
    else Fees(xs[..|xs| - 1], bidPrice, feeBps) + (xs[|xs| - 1] * bidPrice / PRICE_SCALE) * feeBps / BPS
  }

  /** Splitting an order into fills costs the seller less than one premium unit
      for each extra fill and never earns the treasury more. */
  lemma {:induction false} SplittingFills(xs: seq<u64>, bidPrice: u64, feeBps: u16)
    ensures var whole := Sum(xs) * bidPrice / 100_000_000;
            && whole - Spare(|xs|) <= Premiums(xs, bidPrice) <= whole
            && Fees(xs, bidPrice, feeBps) <= Premiums(xs, bidPrice) * feeBps / 10_000 <= whole * feeBps / 10_000
  {
    if xs != [] {
      var init, x := xs[..|xs| - 1], xs[|xs| - 1];
      SplittingFills(init, bidPrice, feeBps);
      AddFill(Sum(init), x, bidPrice, feeBps, Premiums(init, bidPrice), Fees(init, bidPrice, feeBps), |init|);
    }
    var whole, total := Sum(xs) * bidPrice / PRICE_SCALE, Premiums(xs, bidPrice);
    MulMono(feeBps, total, whole);
    DivMono(total * feeBps, whole * feeBps, BPS);
  }

  /** One more fill of `x` on top of fills that sum to `s`. */
  lemma AddFill(s: nat, x: u64, bidPrice: u64, feeBps: u16, p: nat, f: nat, n: nat)
    requires s * bidPrice / PRICE_SCALE - Spare(n) <= p <= s * bidPrice / PRICE_SCALE
    requires f <= p * feeBps / BPS
    requires n == 0 ==> s == 0 && p == 0
    ensures var q := x * bidPrice / PRICE_SCALE;
            var whole := (s + x) * bidPrice / PRICE_SCALE;
            && whole - n <= p + q <= whole
            && f + q * feeBps / BPS <= (p + q) * feeBps / BPS
  {
    var q := x * bidPrice / PRICE_SCALE;
    assert (s + x) * bidPrice == s * bidPrice + x * bidPrice;
    FloorAdd(s * bidPrice, x * bidPrice, PRICE_SCALE);
    assert (p + q) * feeBps == p * feeBps + q * feeBps;
    FloorAdd(p * feeBps, q * feeBps, BPS);
  }
}
