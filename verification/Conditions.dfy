/** Exactly when each instruction of the controller and of the oracle goes through
    in a reachable state, and what it then records. */
module Conditions {
  import opened Wrappers
  import opened Ints
  import opened Bytes
  import opened Payoff
  import opened Model
  import opened Tokens
  import opened PoolBooks
  import opened TokenLaw
  import opened WindDown
  import opened Machine
  import Controller
  import Oracle

  const MAX64: nat := 0xFFFF_FFFF_FFFF_FFFF

  predicate Running(c: ControllerConfig) { !c.fullyPaused && !c.partiallyPaused }

  // ---------------------------------------------------------------- vaults

  /** An owner with a counter opens vaults for anyone but nobody; the next id is
      always free. */
  lemma OpenIff(s: System, owner: Key, mint: Key, beneficiary: Holder)
    requires VaultIds(s)
    ensures var r, w := ApplyController(s, OpenVault(owner, mint, beneficiary)), Wallet(owner);
            && (r.Ok? <==> w in s.counters && s.counters[w] < MAX64 && beneficiary != Wallet(0) && Running(s.config))
            && (r.Ok? ==> VaultKey(w, s.counters[w]) !in s.vaults && r.value == AfterOpen(s, w, mint, beneficiary))
  {
    hide AfterOpen;
    OpenStepIff(s, Wallet(owner), mint, beneficiary);
  }

  ghost function AfterOpen(s: System, owner: Holder, mint: Key, beneficiary: Holder): System
    requires owner in s.counters
  {
    var k := VaultKey(owner, s.counters[owner]);
    s.(vaults := s.vaults[k := Vault(mint, 0, 0, 0, false, beneficiary)], counters := s.counters[owner := s.counters[owner] + 1],
       log := Then(s.log, VaultOpened(k)))
  }

  lemma OpenStepIff(s: System, owner: Holder, mint: Key, beneficiary: Holder)
    requires VaultIds(s)
    ensures var r := Controller.OpenVault(s, owner, mint, beneficiary);
            && (r.Ok? <==> owner in s.counters && s.counters[owner] < MAX64 && beneficiary != Wallet(0) && Running(s.config))
            && (r.Ok? ==> VaultKey(owner, s.counters[owner]) !in s.vaults && r.value == AfterOpen(s, owner, mint, beneficiary))
  {
  }

  lemma CounterIff(s: System, owner: Key)
    ensures var r, w := ApplyController(s, InitializeCounter(owner)), Wallet(owner);
            && (r.Ok? <==> w !in s.counters)
            && (r.Ok? ==> r.value == s.(counters := s.counters[w := 0]))
  {
  }

  /** A deposit needs what it takes: the sender is a wallet (its own account, or one
      that has delegated), and the pool is credited in full. */
  ghost predicate MayDeposit(s: System, k: VaultKey, from: Account, pool: Account, amount: nat, credited: nat) {
    && k in s.vaults && !s.vaults[k].settled && Running(s.config)
    && pool.owner == PoolAuthority(s.vaults[k].collateralMint) && pool.mint == from.mint == s.vaults[k].collateralMint
    && from.owner.Wallet? && 0 < amount <= s.Funds(from) && credited == amount
    && s.vaults[k].collateral + amount <= MAX64
  }

  lemma DepositIff(s: System, owner: Key, id: nat, from: Account, pool: Account, amount: u64, credited: nat)
    requires Lawful(s)
    ensures ApplyController(s, DepositCollateral(owner, id, from, pool, amount, credited)).Ok?
       <==> MayDeposit(s, VaultKey(Wallet(owner), id), from, pool, amount, credited)
  {
    hide Lawful;
    DepositStepIff(s, Wallet(owner), id, from, pool, amount, credited);
  }

  lemma DepositStepIff(s: System, owner: Holder, id: nat, from: Account, pool: Account, amount: u64, credited: nat)
    requires Lawful(s) && (owner.Wallet? || from.owner.Wallet?)
    ensures Controller.Deposit(s, owner, id, from, pool, amount, credited).Ok?
       <==> MayDeposit(s, VaultKey(owner, id), from, pool, amount, credited)
  {
    hide Lawful, Transfer;
    HeldWithinSupply(s, PurseOf(from));
    TransferIff(s, owner, from, pool, amount, credited);
    if Transfer(s, owner, from, pool, amount, credited).Ok? {
      TransferFunds(s, owner, from, pool, amount, credited);
    }
  }

  lemma TransferIff(s: System, authority: Holder, from: Account, to: Account, amount: nat, credited: nat)
    requires s.Funds(from) <= s.Balance(PurseOf(from))
    ensures Transfer(s, authority, from, to, amount, credited).Ok?
       <==> from.mint == to.mint && (from.owner == authority || from.owner.Wallet?) && credited <= amount <= s.Funds(from)
  {
  }

  /** A mint needs collateral for the whole new short, before expiry. */
  ghost predicate MayMint(s: System, k: VaultKey, otoken: Key, to: Account, amount: nat) {
    && k in s.vaults && otoken in s.series
    && var v, o := s.vaults[k], s.series[otoken];
    && !v.settled && Running(s.config) && s.now < o.expiry && to.mint == otoken
    && o.collateralMint == v.collateralMint && (v.short == 0 || v.otoken == otoken)
    && amount > 0 && v.short + amount <= MAX64 && s.Supply(otoken) + amount <= MAX64
    && !(o.isPut && o.decimals > 16) && o.Worth(v.short + amount) <= v.collateral
  }

  lemma MintIff(s: System, owner: Key, id: nat, otoken: Key, to: Account, amount: u64)
    requires Inv(s)
    ensures ApplyController(s, MintOtoken(owner, id, otoken, to, amount)).Ok?
       <==> MayMint(s, VaultKey(Wallet(owner), id), otoken, to, amount)
  {
    MintStepIff(s, Wallet(owner), id, otoken, to, amount);
  }

  lemma MintStepIff(s: System, owner: Holder, id: nat, otoken: Key, to: Account, amount: u64)
    requires Inv(s)
    ensures Controller.Mint(s, owner, id, otoken, to, amount).Ok? <==> MayMint(s, VaultKey(owner, id), otoken, to, amount)
  {
    hide Inv, GetRequiredCollateral, Payoff.Worth;
    var k := VaultKey(owner, id);
    if k in s.vaults && otoken in s.series {
      InvVault(s, k);
      InvSeriesOk(s, otoken);
      if s.vaults[k].short + amount <= MAX64 {
        RequirementIsExact(s.series[otoken], s.vaults[k].short + amount);
      }
    }
  }

  /** The direct exit: fully paused, to the beneficiary, out of an account that
      holds the collateral. */
  ghost predicate MayWithdraw(s: System, k: VaultKey, pool: Account, to: Account, credited: nat) {
    && k in s.vaults
    && var v := s.vaults[k];
    && !v.settled && s.config.fullyPaused
    && pool.owner == PoolAuthority(v.collateralMint) && pool.mint == to.mint == v.collateralMint && to.owner == v.beneficiary
    && (v.collateral == 0 || credited <= v.collateral <= s.Funds(pool))
  }

  lemma WithdrawIff(s: System, owner: Holder, id: nat, pool: Account, to: Account, credited: nat)
    requires Lawful(s)
    ensures Controller.EmergencyWithdrawVault(s, owner, id, pool, to, credited).Ok? <==> MayWithdraw(s, VaultKey(owner, id), pool, to, credited)
  {
    hide Lawful, Transfer;
    var k := VaultKey(owner, id);
    HeldWithinSupply(s, PurseOf(pool));
    if k in s.vaults {
      TransferIff(s.(vaults := s.vaults[k := s.vaults[k].(settled := true)]), pool.owner, pool, to, s.vaults[k].collateral, credited);
    }
  }

  /** A settlement: the controller's admin, a priced series, to the beneficiary. */
  ghost predicate MaySettle(s: System, signer: Key, k: VaultKey, pool: Account, to: Account, credited: nat) {
    && signer == s.config.admin && Settleable(s, k)
    && var v := s.vaults[k];
    && pool.owner == PoolAuthority(v.collateralMint) && pool.mint == to.mint == v.collateralMint && to.owner == v.beneficiary
    && (Returnable(s, k) == 0 || credited <= Returnable(s, k) <= s.Funds(pool))
  }

  lemma SettleIff(s: System, signer: Key, k: VaultKey, pool: Account, to: Account, credited: nat)
    requires Inv(s) && Lawful(s)
    ensures Controller.Settle(s, signer, k.owner, k.id, pool, to, credited).Ok? <==> MaySettle(s, signer, k, pool, to, credited)
  {
    hide Inv, Lawful, Controller.Settle, Settleable, Returnable;
    if Controller.Settle(s, signer, k.owner, k.id, pool, to, credited).Ok? {
      SettleGuards(s, signer, k, pool, to, credited);
    }
    if k in s.vaults && signer == s.config.admin && pool == PoolAccount(s.vaults[k].collateralMint, pool.index)
       && to == Account(s.vaults[k].beneficiary, s.vaults[k].collateralMint, to.index) {
      SettlementIff(s, k, pool.index, to.index, credited);
    } else {
      assert !MaySettle(s, signer, k, pool, to, credited) by { SettleableKnown(s, k); }
    }
  }

  lemma SettleableKnown(s: System, k: VaultKey)
    ensures Settleable(s, k) ==> k in s.vaults && s.vaults[k].otoken in s.series
  {
  }

  lemma SettleGuards(s: System, signer: Key, k: VaultKey, pool: Account, to: Account, credited: nat)
    requires Controller.Settle(s, signer, k.owner, k.id, pool, to, credited).Ok?
    ensures k in s.vaults && signer == s.config.admin
    ensures pool == PoolAccount(s.vaults[k].collateralMint, pool.index)
    ensures to == Account(s.vaults[k].beneficiary, s.vaults[k].collateralMint, to.index)
  {
    hide GetPayout, Controller.PayOut;
  }

  /** A redemption: the holder's own accounts, and what is due in the pool's. */
  ghost predicate MayRedeem(s: System, redeemer: Holder, otoken: Key, from: Account, to: Account, pool: Account, amount: nat, credited: nat) {
    && otoken in s.series
    && var o := s.series[otoken];
    && o.price > 0 && !s.config.fullyPaused
    && from.owner == to.owner == redeemer && from.mint == otoken && to.mint == pool.mint == o.collateralMint
    && pool.owner == PoolAuthority(o.collateralMint)
    && 0 < amount <= s.Funds(from)
    && (Due(o, amount) == 0 || credited <= Due(o, amount) <= s.Funds(pool))
  }

  lemma RedeemIff(s: System, redeemer: Holder, otoken: Key, from: Account, to: Account, pool: Account, amount: u64, credited: nat)
    requires Inv(s) && Lawful(s)
    ensures Controller.Redeem(s, redeemer, otoken, from, to, pool, amount, credited).Ok?
       <==> MayRedeem(s, redeemer, otoken, from, to, pool, amount, credited)
  {
    hide Inv, Lawful, Controller.Redeem, Due;
    if Controller.Redeem(s, redeemer, otoken, from, to, pool, amount, credited).Ok? {
      RedeemGuards(s, redeemer, otoken, from, to, pool, amount, credited);
    }
    if otoken in s.series && from == Account(redeemer, otoken, from.index) && to == Account(redeemer, s.series[otoken].collateralMint, to.index)
       && pool == PoolAccount(s.series[otoken].collateralMint, pool.index) {
      RedemptionIff(s, redeemer, otoken, from.index, to.index, pool.index, amount, credited);
    }
  }

  lemma RedeemGuards(s: System, redeemer: Holder, otoken: Key, from: Account, to: Account, pool: Account, amount: u64, credited: nat)
    requires Controller.Redeem(s, redeemer, otoken, from, to, pool, amount, credited).Ok?
    ensures otoken in s.series && from == Account(redeemer, otoken, from.index)
    ensures to == Account(redeemer, s.series[otoken].collateralMint, to.index)
    ensures pool == PoolAccount(s.series[otoken].collateralMint, pool.index)
  {
    hide GetPayout, Controller.PayOut, Burn;
  }

  /** The redemption instruction: when it goes through, and what it moves. */
  lemma RedeemInstruction(s: System, redeemer: Key, otoken: Key, from: Account, to: Account, pool: Account, amount: u64, credited: nat)
    requires Inv(s) && Lawful(s)
    ensures var r := ApplyController(s, Redeem(redeemer, otoken, from, to, pool, amount, credited));
            && (r.Ok? <==> MayRedeem(s, Wallet(redeemer), otoken, from, to, pool, amount, credited))
            && (r.Ok? ==>
                  var due := Due(s.series[otoken], amount);
                  && r.value.supply == s.supply[otoken := s.Supply(otoken) - amount]
                  && forall a :: r.value.Funds(a) == s.Funds(a) - (if a == from then amount else 0) - (if a == pool then due else 0)
                                                     + (if a == to && due > 0 then credited else 0))
  {
    hide Inv, Lawful, Controller.Redeem, Due, GetPayout;
    RedeemIff(s, Wallet(redeemer), otoken, from, to, pool, amount, credited);
    if Controller.Redeem(s, Wallet(redeemer), otoken, from, to, pool, amount, credited).Ok? {
      RedeemMoves(s, Wallet(redeemer), otoken, from, to, pool, amount, credited);
      RedeemFunds(s, Wallet(redeemer), otoken, from, to, pool, amount, credited);
      PayoutIsDue(s, otoken, amount);
    }
  }

  lemma PayoutIsDue(s: System, otoken: Key, amount: u64)
    requires Inv(s) && otoken in s.series && s.series[otoken].Payout(amount).Ok?
    ensures s.series[otoken].Payout(amount).value == Due(s.series[otoken], amount)
  {
    hide Inv, Payoff.Worth;
    InvSeriesOk(s, otoken);
    RequirementIsExact(s.series[otoken], amount);
  }

  // ---------------------------------------------------------------- series

  lemma CreateIff(s: System, signer: Key, isOperator: bool, otoken: Key, info: Series)
    ensures var r := ApplyController(s, CreateOTokenInfo(signer, isOperator, otoken, info));
            && (r.Ok? <==> && otoken !in s.series && (signer == s.config.admin || isOperator) && info.strike > 0 && info.decimals <= 18
                           && otoken !in {0, info.collateralMint, info.underlying, info.strikeAsset} && s.Supply(otoken) == 0)
            && (r.Ok? ==> r.value == s.(series := s.series[otoken := info.(price := 0)]))
  {
  }

  /** Prices in the oracle's record are positive and due. */
  ghost predicate PricesDue(s: System) {
    forall p | p in s.prices :: s.prices[p] > 0 && p.expiry <= s.now
  }

  /** The price of a series is copied once, by the admin, as soon as the oracle has
      it: the controller's own clock never stands in the way. */
  lemma SeriesPriceIff(s: System, signer: Key, otoken: Key)
    requires PricesDue(s)
    ensures var r := ApplyController(s, SetSeriesPrice(signer, otoken));
            && (r.Ok? <==> && signer == s.config.admin && otoken in s.series && s.series[otoken].price == 0
                           && PriceKey(s.series[otoken].underlying, s.series[otoken].expiry) in s.prices)
            && (r.Ok? ==> var o := s.series[otoken];
                          r.value == s.(series := s.series[otoken := o.(price := s.prices[PriceKey(o.underlying, o.expiry)])]))
  {
  }

  // ---------------------------------------------------------------- the oracle

  /** Only the admin moves feeds, registers an asset once and retires an active feed
      once. */
  lemma FeedsIff(s: System, signer: Key, asset: Key, id: seq<byte>, flag: bool)
    ensures ApplyOracle(s, RegisterFeed(signer, asset, id)).Ok? <==> signer == s.oracle.admin && asset !in s.feeds
    ensures ApplyOracle(s, SetFeedActive(signer, asset, flag)).Ok? <==> signer == s.oracle.admin && asset in s.feeds
    ensures ApplyOracle(s, DeregisterFeed(signer, asset)).Ok? <==> signer == s.oracle.admin && asset in s.feeds && s.feeds[asset].active
  {
    hide Oracle.SetExpiryPrice;
  }

  /** What a price read from an update is held against, in numbers: age, confidence
      and distance in ten-thousandths, each off when its limit is zero. */
  ghost predicate Vetted(c: OracleConfig, now: int, price: nat, p: Oracle.PythPrice) {
    var reference := p.price * Oracle.Up(p.exponent) / Oracle.Down(p.exponent);
    && (c.maxStaleness == 0 || (0 <= now - p.publishTime <= c.maxStaleness && now - p.publishTime <= 0x7FFF_FFFF_FFFF_FFFF))
    && (c.maxConfidenceBps == 0 || (p.conf * 10_000 <= MAX64 && p.conf * 10_000 < (c.maxConfidenceBps + 1) * p.price))
    && -27 <= p.exponent <= 11 && 1 <= reference <= MAX64
    && Oracle.AbsDiff(price, reference) * 10_000 <= MAX64
    && Oracle.AbsDiff(price, reference) * 10_000 < (c.thresholdBps + 1) * reference
  }

  /** A price is finalised by admin or operator, once, at or after expiry, from an
      active feed, and held against an update that the feed's receiver owns. */
  ghost predicate MayFinalize(s: System, signer: Key, underlying: Key, expiry: i64, price: nat, a: Oracle.PriceAccount) {
    && signer in {s.oracle.admin, s.oracle.operator} && PriceKey(underlying, expiry) !in s.prices
    && underlying in s.feeds && s.feeds[underlying].active
    && price > 0 && expiry <= s.now
    && var p := Oracle.ParsePrice(a, s.oracle.receiver, s.feeds[underlying].feedId);
       p.Ok? && Vetted(s.oracle, s.now, price, p.value)
  }

  lemma FinalizeIff(s: System, signer: Key, underlying: Key, expiry: i64, price: u64, a: Oracle.PriceAccount)
    requires s.oracle.thresholdBps > 0
    ensures var r := Oracle.SetExpiryPrice(s, signer, underlying, expiry, price, a);
            && (r.Ok? <==> MayFinalize(s, signer, underlying, expiry, price, a))
            && (r.Ok? ==> r.value == s.(prices := s.prices[PriceKey(underlying, expiry) := price]))
  {
    hide Oracle.ParsePrice, Oracle.Normalize, Oracle.ValidatePriceDeviation, Oracle.ValidateConfidence, Oracle.Up, Oracle.Down;
    if underlying in s.feeds && Oracle.ParsePrice(a, s.oracle.receiver, s.feeds[underlying].feedId).Ok? {
      var p := Oracle.ParsePrice(a, s.oracle.receiver, s.feeds[underlying].feedId).value;
      Oracle.ParsedPositive(a, s.oracle.receiver, s.feeds[underlying].feedId);
      Oracle.NormalizeIsFloor(p.price, p.exponent);
      if s.oracle.maxConfidenceBps > 0 {
        Oracle.ConfidenceBound(p.price, p.conf, s.oracle.maxConfidenceBps);
      } else {
        UncheckedConfidence(p.price, p.conf);
      }
      if Oracle.Normalize(p.price, p.exponent).Ok? {
        Oracle.DeviationBound(price, Oracle.Normalize(p.price, p.exponent).value, s.oracle.thresholdBps);
      }
    }
  }

  lemma UncheckedConfidence(price: i64, conf: u64)
    ensures Oracle.ValidateConfidence(price, conf, 0).Pass?
  {
  }
}
