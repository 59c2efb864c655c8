/** Consequences of solvency: the end of a series, and instructions that cannot
    fail for lack of funds. */
module WindDown {
  import opened Wrappers
  import opened Ints
  import opened Payoff
  import opened Sums
  import opened Model
  import opened Tokens
  import opened Controller
  import opened PoolBooks
  import opened Solvency
  import opened TokenLaw

  /** Collateral of the vaults of a series that stayed in the pool. */
  ghost function RetainedMap(s: System, otoken: Key): map<VaultKey, int> {
    map k | k in s.vaults ::
      if s.vaults[k].otoken == otoken && !Rescued(s, k) then s.vaults[k].collateral - Total(s.log, ReleasedFrom(k)) else 0
  }

  /** Every vault of the series that was not rescued has settled, and every
      oToken has been redeemed. */
  ghost predicate WoundDown(s: System, otoken: Key) {
    && (forall k | k in s.vaults && s.vaults[k].otoken == otoken && !Rescued(s, k) :: s.vaults[k].settled)
    && s.Supply(otoken) == 0
    && Total(s.log, BurnedOutside(otoken)) == 0
  }

  lemma RetainedIsStakeOf(s: System, otoken: Key, k: VaultKey)
    requires VaultsOk(s) && k in s.vaults && WoundDown(s, otoken)
    ensures s.vaults[k].otoken != otoken ==> RetainedMap(s, otoken)[k] == 0
    ensures s.vaults[k].otoken == otoken && otoken in s.series && otoken != 0
        ==> RetainedMap(s, otoken)[k] == StakeMap(s, _ => 0, s.series[otoken].collateralMint)[k]
  {
    hide Payoff.Worth;
    assert Sound(s.vaults[k], s.series, FlowsOf(s.log, k));
  }

  lemma RetainedIsStake(s: System, otoken: Key)
    requires Inv(s) && otoken in s.series && WoundDown(s, otoken)
    ensures RetainedMap(s, otoken) == StakesOf(s, _ => 0, s.series[otoken].collateralMint, otoken)
  {
    hide Balanced, VaultIds, Sound, Payoff.Worth;
    var stakes := StakesOf(s, _ => 0, s.series[otoken].collateralMint, otoken);
    forall k | k in s.vaults ensures RetainedMap(s, otoken)[k] == stakes[k] {
      RetainedIsStakeOf(s, otoken, k);
    }
  }

  /** Once a series is wound down, what the pool kept for it and what it paid
      out differ by rounding only: it is short by less than one unit for each
      writer and over by less than one unit for each redemption, and exactly
      even when the series has no denominator. */
  lemma WindDownIsEven(s: System, otoken: Key)
    requires Inv(s) && SeriesBooks(s) && otoken in s.series && WoundDown(s, otoken)
    ensures var net := MapSum(RetainedMap(s, otoken)) - Total(s.log, PaidFor(otoken));
            && -Spare(Writers(s, otoken)) <= net <= Spare(Total(s.log, RedemptionsOf(otoken)))
            && (s.series[otoken].Exact() ==> net == 0)
  {
    hide Payoff.Worth, RetainedMap, StakesOf, Balanced, VaultsOk, Written, Loss;
    var o, p := s.series[otoken], PaymentsOf(s.log, otoken);
    RetainedIsStake(s, otoken);
    StakesOfSeries(s, _ => 0, o.collateralMint, otoken);
    LossBounds(s, otoken);
    assert Accounted(o, BookOf(s, otoken), p);
    if o.price == 0 {
      assert p == Payments(0, 0, 0);
      WorthOfNothing(o);
    }
  }

  // ---------------------------------------------------------------- funds

  lemma ClaimsNonNeg(s: System, q: Forecast, mint: Key, k: VaultKey)
    requires VaultsOk(s) && k in s.vaults
    ensures 0 <= ClaimMap(s, q, mint)[k]
  {
    hide Payoff.Worth, CashFlow;
    var v := s.vaults[k];
    assert Covered(v, s.series);
    if v.otoken in s.series {
      WorthOfNothing(s.series[v.otoken]);
    }
  }

  /** What covers all claims and all outstanding oTokens covers each of them. */
  lemma EachWithin(s: System, q: Forecast, mint: Key, funds: int)
    requires Inv(s) && MapSum(ClaimMap(s, q, mint)) + MapSum(OwedMap(s, q, mint)) <= funds
    ensures forall k | k in s.vaults :: ClaimMap(s, q, mint)[k] <= funds
    ensures forall o | o in s.series :: OwedMap(s, q, mint)[o] <= funds
  {
    var claims, owed := ClaimMap(s, q, mint), OwedMap(s, q, mint);
    forall k | k in s.vaults ensures 0 <= claims[k] {
      ClaimsNonNeg(s, q, mint, k);
    }
    NonNegSum(claims);
    NonNegSum(owed);
    forall k | k in s.vaults ensures claims[k] <= MapSum(claims) {
      SumAtLeast(claims, k);
    }
    forall o | o in s.series ensures owed[o] <= MapSum(owed) {
      SumAtLeast(owed, o);
    }
  }

  /** No rounding is lost on `mint`; in particular when its series are exact. */
  ghost predicate Lossless(s: System, mint: Key) {
    MapSum(LossMap(s, mint)) == 0
  }

  lemma ExactSeriesLossless(s: System, mint: Key)
    requires forall o | o in s.series && s.series[o].collateralMint == mint :: s.series[o].Exact()
    ensures Lossless(s, mint)
  {
    forall o | o in s.series ensures LossMap(s, mint)[o] == 0 {
      LossBounds(s, o);
    }
    SumZero(LossMap(s, mint));
  }

  /** With something to spare, at whatever forecast, a pool covers each claim and
      each series' outstanding supply. */
  lemma FundsFor(s: System, q: Forecast, mint: Key)
    requires Inv(s) && Slack(s, q, mint) >= 0
    ensures forall k | k in s.vaults :: ClaimMap(s, q, mint)[k] <= s.Balance(PoolPurse(mint))
    ensures forall o | o in s.series :: OwedMap(s, q, mint)[o] <= s.Balance(PoolPurse(mint))
  {
    hide Inv, Slack;
    ExactlySolventIff(s, q, mint);
    EachWithin(s, q, mint, s.Balance(PoolPurse(mint)));
  }

  /** Sound books whose series lose nothing to rounding have nothing missing. */
  lemma LosslessSlack(s: System, q: Forecast, mint: Key)
    requires Inv(s) && SeriesBooks(s) && Lossless(s, mint)
    ensures Slack(s, q, mint) >= 0
  {
    hide Inv, SeriesBooks, Slack;
    PoolsSolvent(s, q, mint);
    ExactlySolventIff(s, q, mint);
  }

  // ---------------------------------------------------------------- settlement

  /** Settlement of a vault, as its operator would submit it, out of one account
      of the pool. */
  function SettleOf(s: System, k: VaultKey, pool: nat, to: nat, credited: nat): Result<System> {
    var known := k in s.vaults;
    :- Need(known, AccountMissing);
    var v := s.vaults[k];
    Settle(s, s.config.admin, k.owner, k.id, PoolAccount(v.collateralMint, pool), Account(v.beneficiary, v.collateralMint, to), credited)
  }

  /** What settlement returns: everything out of the money, the collateral above
      the requirement in the money. */
  ghost function Returnable(s: System, k: VaultKey): int
    requires k in s.vaults && s.vaults[k].otoken in s.series
  {
    s.vaults[k].collateral - Due(s.series[s.vaults[k].otoken], s.vaults[k].short)
  }

  /** The checks of a settlement that do not concern money. */
  ghost predicate Settleable(s: System, k: VaultKey) {
    && k in s.vaults && !s.vaults[k].settled && s.vaults[k].otoken in s.series
    && s.series[s.vaults[k].otoken].price > 0 && !s.config.fullyPaused
  }

  lemma SettlePays(s: System, k: VaultKey, pool: nat, to: nat, credited: nat, payout: u64)
    requires Settleable(s, k) && s.vaults[k].short > 0 && s.now >= s.series[s.vaults[k].otoken].expiry
    requires s.series[s.vaults[k].otoken].Payout(s.vaults[k].short) == Ok(payout) && payout <= s.vaults[k].collateral
    requires s.Funds(PoolAccount(s.vaults[k].collateralMint, pool)) <= s.Balance(PoolPurse(s.vaults[k].collateralMint))
    ensures var returned, held := s.vaults[k].collateral - payout, s.Funds(PoolAccount(s.vaults[k].collateralMint, pool));
            var r := SettleOf(s, k, pool, to, credited);
            && (r.Ok? <==> returned == 0 || (credited <= returned <= held))
            && (returned > held ==> r == Err(InsufficientFunds))
            && (r.Ok? ==> r.value.log.Then? && r.value.log.event.Settled? && r.value.log.event.returned == returned)
  {
    hide GetPayout;
  }

  /** Exactly when a settlement goes through, in every reachable state: its vault
      is unsettled and its series priced, the controller is not paused, and the
      pool account passed holds what is returnable, which is what the beneficiary
      is sent. */
  lemma SettlementIff(s: System, k: VaultKey, pool: nat, to: nat, credited: nat)
    requires Inv(s) && Lawful(s)
    ensures SettleOf(s, k, pool, to, credited).Ok?
       <==> && Settleable(s, k)
            && (Returnable(s, k) == 0 || credited <= Returnable(s, k) <= s.Funds(PoolAccount(s.vaults[k].collateralMint, pool)))
    ensures Settleable(s, k) ==>
      (Returnable(s, k) > s.Funds(PoolAccount(s.vaults[k].collateralMint, pool))
       ==> SettleOf(s, k, pool, to, credited) == Err(InsufficientFunds))
    ensures var r := SettleOf(s, k, pool, to, credited);
            r.Ok? ==> r.value.log.Then? && r.value.log.event.Settled? && r.value.log.event.returned == Returnable(s, k)
  {
    hide Inv, Lawful, GetPayout, Payoff.Worth;
    if Settleable(s, k) {
      hide Settle;
      var v := s.vaults[k];
      InvVault(s, k);
      InvSeriesOk(s, v.otoken);
      PayoutAlwaysCovered(v, s.series, s.series[v.otoken].price);
      HeldWithinSupply(s, PoolPurse(v.collateralMint));
      SettlePays(s, k, pool, to, credited, Due(s.series[v.otoken], v.short));
    }
  }

  /** Everything a purse has is in one of its accounts. */
  ghost predicate InOneAccount(s: System, a: Account) {
    s.Funds(a) == s.Balance(PurseOf(a))
  }

  /** With something to spare at any forecast, a settlement out of an account that
      holds the whole pool never lacks funds. */
  lemma SettlementSucceeds(s: System, k: VaultKey, q: Forecast, pool: nat, to: nat, credited: nat)
    requires Inv(s) && Lawful(s) && Settleable(s, k) && Slack(s, q, s.vaults[k].collateralMint) >= 0
    requires InOneAccount(s, PoolAccount(s.vaults[k].collateralMint, pool))
    ensures SettleOf(s, k, pool, to, credited).Ok? <==> credited <= Returnable(s, k) || Returnable(s, k) == 0
  {
    hide Inv, Lawful, SettleOf, Slack, Payoff.Worth;
    var v := s.vaults[k];
    FundsFor(s, q, v.collateralMint);
    assert ClaimMap(s, q, v.collateralMint)[k] == Returnable(s, k);
    SettlementIff(s, k, pool, to, credited);
  }

  // ---------------------------------------------------------------- emergency exit

  /** Every series without a price ending at its strike, out of the money. */
  ghost function AtStrike(s: System): Forecast {
    o => if o in s.series then s.series[o].strike else 0
  }

  /** At such a forecast series without a price neither owe nor lose anything. */
  lemma UnpricedSlack(s: System, mint: Key)
    requires Inv(s) && forall o | o in s.series && s.series[o].collateralMint == mint :: s.series[o].price == 0
    ensures Slack(s, AtStrike(s), mint) >= 0
  {
    hide Payoff.Worth, Written, Loss, VaultsOk, Balanced, SeriesOk;
    forall o | o in s.series ensures ExcessMap(s, AtStrike(s), mint)[o] == 0 && LossAtMap(s, AtStrike(s), mint)[o] == 0 {
      if s.series[o].collateralMint == mint {
        assert PaymentsOf(s.log, o) == Payments(0, 0, 0);
      }
    }
    SumZero(ExcessMap(s, AtStrike(s), mint));
    SumZero(LossAtMap(s, AtStrike(s), mint));
  }

  /** While no series on a mint has a price, every unsettled vault's whole
      collateral is in the pool, whatever exits were taken before. */
  lemma ExitFunded(s: System, k: VaultKey)
    requires Inv(s) && k in s.vaults && !s.vaults[k].settled
    requires forall o | o in s.series && s.series[o].collateralMint == s.vaults[k].collateralMint :: s.series[o].price == 0
    ensures s.vaults[k].collateral <= s.Balance(PoolPurse(s.vaults[k].collateralMint))
  {
    hide Inv, Slack, Payoff.Worth;
    var v := s.vaults[k];
    UnpricedSlack(s, v.collateralMint);
    FundsFor(s, AtStrike(s), v.collateralMint);
    assert ClaimMap(s, AtStrike(s), v.collateralMint)[k] == v.collateral by {
      InvVault(s, k);
      if v.otoken in s.series {
        InvSeriesOk(s, v.otoken);
        assert PriceOf(s, AtStrike(s), v.otoken) == s.series[v.otoken].strike;
      }
    }
  }

  // ---------------------------------------------------------------- redemption

  /** Redemption by a holder, out of one of its oToken accounts and one account of
      the pool. */
  function RedeemOf(s: System, redeemer: Holder, otoken: Key, from: nat, to: nat, pool: nat, amount: u64, credited: nat): Result<System> {
    var known := otoken in s.series;
    :- Need(known, AccountMissing);
    var mint := s.series[otoken].collateralMint;
    Redeem(s, redeemer, otoken, Account(redeemer, otoken, from), Account(redeemer, mint, to), PoolAccount(mint, pool), amount, credited)
  }

  /** The checks of a redemption that do not concern the pool. */
  ghost predicate Redeemable(s: System, redeemer: Holder, otoken: Key, from: nat, amount: u64) {
    && otoken in s.series && s.series[otoken].price > 0
    && !s.config.fullyPaused && 0 < amount <= s.Funds(Account(redeemer, otoken, from))
  }

  lemma RedeemPays(s: System, redeemer: Holder, otoken: Key, from: nat, to: nat, pool: nat, amount: u64, credited: nat)
    requires Redeemable(s, redeemer, otoken, from, amount) && s.series[otoken].Payout(amount).Ok? && amount <= s.Supply(otoken)
    requires s.now >= s.series[otoken].expiry && s.series[otoken].collateralMint != otoken
    requires s.Funds(Account(redeemer, otoken, from)) <= s.Balance(Purse(redeemer, otoken))
    requires s.Funds(PoolAccount(s.series[otoken].collateralMint, pool)) <= s.Balance(PoolPurse(s.series[otoken].collateralMint))
    ensures var payout, held := s.series[otoken].Payout(amount).value, s.Funds(PoolAccount(s.series[otoken].collateralMint, pool));
            var r := RedeemOf(s, redeemer, otoken, from, to, pool, amount, credited);
            && (r.Ok? <==> payout == 0 || credited <= payout <= held)
            && (payout > held ==> r == Err(InsufficientFunds))
  {
    hide GetPayout, Burn;
    var a := Account(redeemer, otoken, from);
    BurnGoes(s, redeemer, a, amount);
    BurnMoves(s, redeemer, a, amount);
    BurnFunds(s, redeemer, a, amount);
  }

  lemma BurnGoes(s: System, holder: Holder, from: Account, amount: nat)
    requires from.owner == holder && amount <= s.Funds(from) <= s.Balance(PurseOf(from)) && amount <= s.Supply(from.mint)
    ensures Burn(s, holder, from, amount).Ok?
  {
  }

  lemma RefusedRedemption(s: System, redeemer: Holder, otoken: Key, from: nat, to: nat, pool: nat, amount: u64, credited: nat)
    requires RedeemOf(s, redeemer, otoken, from, to, pool, amount, credited).Ok?
    ensures Redeemable(s, redeemer, otoken, from, amount) && s.series[otoken].Payout(amount).Ok?
  {
    hide GetPayout;
  }

  /** The payout of what a holder has exists exactly when what is due fits 64 bits. */
  lemma PayoutOfHeld(s: System, redeemer: Holder, otoken: Key, from: nat, amount: u64)
    requires Inv(s) && Lawful(s) && Redeemable(s, redeemer, otoken, from, amount)
    ensures s.series[otoken].Payout(amount)
         == if Due(s.series[otoken], amount) <= U64_MAX then Ok(Due(s.series[otoken], amount)) else Err(MathOverflow)
  {
    hide Inv, Payoff.Worth, Summed, WithinSupply;
    InvSeriesOk(s, otoken);
    assert s.series[otoken].Priceable() by {
      HeldWithinSupply(s, Purse(redeemer, otoken));
    }
    RequiredIsWorth(s.series[otoken].strike, s.series[otoken].isPut, s.series[otoken].decimals, amount);
  }

  /** Exactly when a redemption goes through, in every reachable state: its series
      is priced, the controller is not paused, the account passed holds the
      amount, and the pool account passed holds what is due. */
  lemma RedemptionIff(s: System, redeemer: Holder, otoken: Key, from: nat, to: nat, pool: nat, amount: u64, credited: nat)
    requires Inv(s) && Lawful(s)
    ensures RedeemOf(s, redeemer, otoken, from, to, pool, amount, credited).Ok?
       <==> && Redeemable(s, redeemer, otoken, from, amount)
            && var due := Due(s.series[otoken], amount);
               due == 0 || credited <= due <= s.Funds(PoolAccount(s.series[otoken].collateralMint, pool))
    ensures Redeemable(s, redeemer, otoken, from, amount) ==>
      var due := Due(s.series[otoken], amount);
      (s.Funds(PoolAccount(s.series[otoken].collateralMint, pool)) < due <= U64_MAX
       ==> RedeemOf(s, redeemer, otoken, from, to, pool, amount, credited) == Err(InsufficientFunds))
  {
    hide Inv, Lawful, RedeemOf, Payoff.Worth;
    if Redeemable(s, redeemer, otoken, from, amount) {
      InvSeriesOk(s, otoken);
      PayoutOfHeld(s, redeemer, otoken, from, amount);
      HeldWithinSupply(s, Purse(redeemer, otoken));
      HeldWithinSupply(s, PoolPurse(s.series[otoken].collateralMint));
      if s.series[otoken].Payout(amount).Ok? {
        RedeemPays(s, redeemer, otoken, from, to, pool, amount, credited);
      } else if RedeemOf(s, redeemer, otoken, from, to, pool, amount, credited).Ok? {
        RefusedRedemption(s, redeemer, otoken, from, to, pool, amount, credited);
      }
    } else if RedeemOf(s, redeemer, otoken, from, to, pool, amount, credited).Ok? {
      RefusedRedemption(s, redeemer, otoken, from, to, pool, amount, credited);
    }
  }

  /** With something to spare at any forecast, a redemption of any amount the
      holder has, out of an account that holds the whole pool, never lacks funds. */
  lemma RedemptionSucceeds(s: System, redeemer: Holder, otoken: Key, from: nat, to: nat, pool: nat, amount: u64, q: Forecast, credited: nat)
    requires Inv(s) && Lawful(s) && Redeemable(s, redeemer, otoken, from, amount)
    requires Slack(s, q, s.series[otoken].collateralMint) >= 0
    requires InOneAccount(s, PoolAccount(s.series[otoken].collateralMint, pool))
    ensures var due := Due(s.series[otoken], amount);
            RedeemOf(s, redeemer, otoken, from, to, pool, amount, credited).Ok? <==> credited <= due || due == 0
  {
    hide Inv, Lawful, RedeemOf, Slack, Payoff.Worth;
    var o := s.series[otoken];
    HeldWithinSupply(s, Purse(redeemer, otoken));
    WorthMono(o.strike, o.isPut, o.decimals, amount, s.Supply(otoken));
    FundsFor(s, q, o.collateralMint);
    assert OwedMap(s, q, o.collateralMint)[otoken] == Due(o, s.Supply(otoken));
    RedemptionIff(s, redeemer, otoken, from, to, pool, amount, credited);
  }
}
