/** Exactly when each instruction of the settler goes through in a reachable
    state: in particular, which of its checks can never be what refuses it. */
module SettlerConditions {
  import opened Wrappers
  import opened Ints
  import opened Bytes
  import opened Payoff
  import opened Sums
  import opened Model
  import opened Tokens
  import opened Quotes
  import opened Settler
  import opened SettlerBooks
  import opened OrderSteps
  import opened DeliverySteps
  import opened PoolBooks
  import opened TokenLaw
  import opened WindDown
  import opened Machine
  import opened Invariants
  import opened Conditions
  import Theorems
  import Controller

  // ---------------------------------------------------------------- orders

  /** An earlier instruction of the signature program carries the maker's key and
      the seven terms. */
  ghost predicate SignedFor(a: Order) {
    exists i :: 0 <= i < a.current && i < |a.ixs|
      && Accepts(a.ixs[i], ToLE(a.maker, 32),
                 Message(Quotes.Quote(a.otoken, a.premiumMint, a.bidPrice, a.deadline, a.quoteId, a.maxAmount, a.nonce)))
  }

  /** The quote: its maker, its terms, and room under it for this amount. */
  ghost predicate Quoted(s: System, a: Order) {
    && a.maker in s.makers && s.makers[a.maker] == MakerState(a.nonce, true) && SignedFor(a) && s.now <= a.deadline
    && 1_000_000 <= a.amount && 0 < a.bidPrice && !s.settler.paused
    && var q := QuoteKey(a.maker, a.nonce, a.quoteId);
    && (q in s.fills ==> !s.fills[q].cancelled)
    && (if q in s.fills then s.fills[q].filled else 0) + a.amount <= a.maxAmount
  }

  /** The accounts passed belong to whom they should. */
  ghost predicate Matched(s: System, a: Order) {
    var x := a.accounts;
    && x.userCollateral.owner == x.userPremium.owner == Wallet(a.user) && x.mmPremium.owner == Wallet(a.maker)
    && x.userCollateral.mint == a.collateralMint && x.pool.owner == PoolAuthority(a.collateralMint) && x.pool.mint == a.collateralMint
    && x.settlerOtoken.owner == SettlerPda && x.settlerOtoken.mint == a.otoken
    && x.treasury.owner == s.settler.treasury
    && x.mmPremium.mint == x.userPremium.mint == x.treasury.mint == a.premiumMint
  }

  /** The user's collateral covers the new vault. */
  ghost predicate Collateralised(s: System, a: Order) {
    && SettlerPda in s.counters && s.counters[SettlerPda] < MAX64 && a.user != 0 && Running(s.config)
    && 0 < a.collateralAmount <= s.Funds(a.accounts.userCollateral) && a.credited == a.collateralAmount
    && a.otoken in s.series
    && var o := s.series[a.otoken];
    && o.collateralMint == a.collateralMint && s.now < o.expiry && s.Supply(a.otoken) + a.amount <= MAX64
    && !(o.isPut && o.decimals > 16) && o.Worth(a.amount) <= a.collateralAmount
  }

  /** Premium and fee fit 64 bits, and the maker's account has them: the net part,
      then the fee, after what it may have lost as the user's own. */
  ghost predicate Affordable(s: System, a: Order) {
    var premium := a.amount * a.bidPrice / 100_000_000;
    var fee := premium * s.settler.feeBps / 10_000;
    var held := s.Funds(a.accounts.mmPremium) - (if a.accounts.mmPremium == a.accounts.userCollateral then a.collateralAmount else 0);
    && premium <= MAX64 && premium * s.settler.feeBps <= MAX64
    && premium - fee <= held
    && fee <= (if a.accounts.userPremium == a.accounts.mmPremium then held else held - (premium - fee))
  }

  lemma CheckIff(s: System, a: Order)
    ensures CheckOrder(s, a).Pass?
       <==> && a.maker in s.makers && s.makers[a.maker] == MakerState(a.nonce, true) && SignedFor(a) && s.now <= a.deadline
            && 1_000_000 <= a.amount && 0 < a.bidPrice && !s.settler.paused
            && PassedRight(s, a)
  {
    hide Message, ToLE, Accepts;
    assert a.Quote() == Quotes.Quote(a.otoken, a.premiumMint, a.bidPrice, a.deadline, a.quoteId, a.maxAmount, a.nonce);
  }

  /** `Matched` but for the mint of the user's collateral, which the deposit checks. */
  ghost predicate PassedRight(s: System, a: Order) {
    var x := a.accounts;
    && x.userCollateral.owner == x.userPremium.owner == Wallet(a.user) && x.mmPremium.owner == Wallet(a.maker)
    && x.pool.owner == PoolAuthority(a.collateralMint) && x.pool.mint == a.collateralMint
    && x.settlerOtoken.owner == SettlerPda && x.settlerOtoken.mint == a.otoken
    && x.treasury.owner == s.settler.treasury
    && x.mmPremium.mint == x.userPremium.mint == x.treasury.mint == a.premiumMint
  }

  lemma ChargeIff(s: System, a: Order)
    ensures UpdateFill(FillOf(s, a.Fill()), a.amount, a.maxAmount).Ok?
       <==> && (QuoteKey(a.maker, a.nonce, a.quoteId) in s.fills ==> !s.fills[QuoteKey(a.maker, a.nonce, a.quoteId)].cancelled)
            && (if QuoteKey(a.maker, a.nonce, a.quoteId) in s.fills then s.fills[QuoteKey(a.maker, a.nonce, a.quoteId)].filled else 0)
               + a.amount <= a.maxAmount
  {
  }

  // ---- the collateral leg, instruction by instruction

  lemma VaultedIff(s: System, a: Order)
    requires Inv(s) && Lawful(s)
    ensures var r := Controller.OpenVault(s, SettlerPda, a.collateralMint, Wallet(a.user));
            && (r.Ok? <==> SettlerPda in s.counters && s.counters[SettlerPda] < MAX64 && a.user != 0 && Running(s.config))
            && (r.Ok? ==> r.value == AfterOpen(s, SettlerPda, a.collateralMint, Wallet(a.user)) && Inv(r.value) && Lawful(r.value))
  {
    hide Inv, Lawful, AfterOpen, Controller.OpenVault;
    InvVaultIds(s);
    OpenStepIff(s, SettlerPda, a.collateralMint, Wallet(a.user));
    if Controller.OpenVault(s, SettlerPda, a.collateralMint, Wallet(a.user)).Ok? {
      OpenVaultKeeps(s, SettlerPda, a.collateralMint, Wallet(a.user));
      OpenLawful(s, SettlerPda, a.collateralMint, Wallet(a.user));
    }
  }

  /** The deposit into the vault just opened. */
  lemma FundedIff(s: System, a: Order)
    requires Inv(s) && Lawful(s) && PassedRight(s, a) && SettlerPda in s.counters && Running(s.config)
    ensures var v := AfterOpen(s, SettlerPda, a.collateralMint, Wallet(a.user));
            var r := Controller.Deposit(v, SettlerPda, s.counters[SettlerPda], a.accounts.userCollateral, a.accounts.pool, a.collateralAmount, a.credited);
            Inv(v) && Lawful(v) ==>
              && (r.Ok? <==> && a.accounts.userCollateral.mint == a.collateralMint
                             && 0 < a.collateralAmount <= s.Funds(a.accounts.userCollateral) && a.credited == a.collateralAmount)
              && (r.Ok? ==> Inv(r.value) && Lawful(r.value))
  {
    hide Inv, Lawful, Controller.Deposit;
    var v := AfterOpen(s, SettlerPda, a.collateralMint, Wallet(a.user));
    if Inv(v) && Lawful(v) {
      DepositStepIff(v, SettlerPda, s.counters[SettlerPda], a.accounts.userCollateral, a.accounts.pool, a.collateralAmount, a.credited);
      if Controller.Deposit(v, SettlerPda, s.counters[SettlerPda], a.accounts.userCollateral, a.accounts.pool, a.collateralAmount, a.credited).Ok? {
        DepositKeeps(v, SettlerPda, s.counters[SettlerPda], a.accounts.userCollateral, a.accounts.pool, a.collateralAmount, a.credited);
        DepositLawful(v, SettlerPda, s.counters[SettlerPda], a.accounts.userCollateral, a.accounts.pool, a.collateralAmount, a.credited);
      }
    }
  }

  lemma WrittenIff(s: System, a: Order)
    requires Inv(s) && Lawful(s) && PassedRight(s, a) && 0 < a.amount
    ensures WriteOption(s, a).Ok? <==> Collateralised(s, a) && a.accounts.userCollateral.mint == a.collateralMint
  {
    hide Inv, Lawful, Controller.OpenVault, Controller.Deposit, Controller.Mint, Payoff.Worth;
    VaultedIff(s, a);
    if SettlerPda in s.counters && s.counters[SettlerPda] < MAX64 && a.user != 0 && Running(s.config) {
      var v, id := AfterOpen(s, SettlerPda, a.collateralMint, Wallet(a.user)), s.counters[SettlerPda];
      FundedIff(s, a);
      var r := Controller.Deposit(v, SettlerPda, id, a.accounts.userCollateral, a.accounts.pool, a.collateralAmount, a.credited);
      if r.Ok? {
        DepositMoves(v, SettlerPda, id, a.accounts.userCollateral, a.accounts.pool, a.collateralAmount, a.credited);
        MintStepIff(r.value, SettlerPda, id, a.otoken, a.accounts.settlerOtoken, a.amount);
        assert r.value.Supply(a.otoken) == s.Supply(a.otoken);
      }
    }
  }

  // ---- the ledgers and the premium

  /** What custody records fits, as the oTokens themselves do. */
  lemma LedgersTake(s: System, w: System, a: Order)
    requires AttributionsOk(s) && Backed(s, a.otoken) && Lawful(s) && w.custody == s.custody && w.attributions == s.attributions
    requires OrderVault(s) !in s.vaults && s.Supply(a.otoken) + a.amount <= MAX64
    ensures Attribute(w, OrderVault(s), a.maker, a.otoken, a.amount).Ok?
  {
    hide Lawful, Attributed;
    Theorems.CustodyWithin(s, CustodyKey(a.maker, a.otoken));
    HeldWithinSupply(s, CustodyPurse(a.otoken));
  }

  lemma PremiumIff(w: System, a: Order, split: Split)
    requires Lawful(w) && a.accounts.mmPremium.owner.Wallet?
    requires a.accounts.mmPremium.mint == a.accounts.userPremium.mint == a.accounts.treasury.mint
    ensures PayPremium(w, a, split).Ok?
       <==> && split.net <= w.Funds(a.accounts.mmPremium)
            && split.fee <= w.Funds(a.accounts.mmPremium) - (if a.accounts.userPremium == a.accounts.mmPremium then 0 else split.net)
  {
    hide Lawful, Transfer;
    var x := a.accounts;
    HeldWithinSupply(w, PurseOf(x.mmPremium));
    TransferIff(w, SettlerPda, x.mmPremium, x.userPremium, split.net, split.net);
    if split.net <= w.Funds(x.mmPremium) {
      TransferFunds(w, SettlerPda, x.mmPremium, x.userPremium, split.net, split.net);
      TransferLawful(w, SettlerPda, x.mmPremium, x.userPremium, split.net, split.net);
      var paid := Transfer(w, SettlerPda, x.mmPremium, x.userPremium, split.net, split.net).value;
      HeldWithinSupply(paid, PurseOf(x.mmPremium));
      TransferIff(paid, SettlerPda, x.mmPremium, x.treasury, split.fee, split.fee);
      TransferIff(w, SettlerPda, x.mmPremium, x.treasury, split.fee, split.fee);
    }
  }

  /** The maker's premium account after the collateral leg. */
  lemma PremiumHeld(s: System, a: Order)
    requires WriteOption(s, a).Ok? && PassedRight(s, a)
    ensures var x := a.accounts;
            WriteOption(s, a).value.Funds(x.mmPremium)
            == s.Funds(x.mmPremium) - (if x.mmPremium == x.userCollateral then a.collateralAmount else 0)
  {
    hide Controller.Deposit, Controller.Mint;
    var id := s.counters[SettlerPda];
    var v := Controller.OpenVault(s, SettlerPda, a.collateralMint, Wallet(a.user)).value;
    var f := Controller.Deposit(v, SettlerPda, id, a.accounts.userCollateral, a.accounts.pool, a.collateralAmount, a.credited).value;
    DepositFunds(v, SettlerPda, id, a.accounts.userCollateral, a.accounts.pool, a.collateralAmount, a.credited);
    MintFunds(f, SettlerPda, id, a.otoken, a.accounts.settlerOtoken, a.amount);
  }

  lemma FilledIff(s: System, a: Order, split: Split)
    requires Inv(s) && AttributionsOk(s) && Backed(s, a.otoken) && Lawful(s) && PassedRight(s, a) && 0 < a.amount
    ensures var held := s.Funds(a.accounts.mmPremium) - (if a.accounts.mmPremium == a.accounts.userCollateral then a.collateralAmount else 0);
            FillOrder(s, a, split).Ok?
            <==> && Collateralised(s, a) && a.accounts.userCollateral.mint == a.collateralMint
                 && split.net <= held && split.fee <= (if a.accounts.userPremium == a.accounts.mmPremium then held else held - split.net)
  {
    hide Inv, AttributionsOk, Backed, Lawful, WriteOption, Attribute, PayPremium, Collateralised;
    WrittenIff(s, a);
    if WriteOption(s, a).Ok? {
      var w := WriteOption(s, a).value;
      WriteOptionLawful(s, a);
      WriteOptionEffect(s, a);
      PremiumHeld(s, a);
      CollateralisedFits(s, a);
      LedgersTake(s, w, a);
      var t := Attribute(w, OrderVault(s), a.maker, a.otoken, a.amount).value;
      AttributeTokens(w, OrderVault(s), a.maker, a.otoken, a.amount);
      SameTokens(w, t);
      PremiumIff(t, a, split);
    }
  }

  lemma CollateralisedFits(s: System, a: Order)
    requires Collateralised(s, a)
    ensures SettlerPda in s.counters && s.Supply(a.otoken) + a.amount <= MAX64
  {
  }

  lemma AttributeTokens(s: System, k: VaultKey, maker: Key, otoken: Key, amount: u64)
    requires Attribute(s, k, maker, otoken, amount).Ok?
    ensures var t := Attribute(s, k, maker, otoken, amount).value;
            t.balances == s.balances && t.supply == s.supply && t.series == s.series && (forall a :: t.Funds(a) == s.Funds(a))
  {
  }

  /** Exactly when an order executes: signed, unspent and in time, with the right
      accounts, covered collateral and a payable premium. The ledgers never stand
      in the way: a fresh vault is never attributed and custody never overflows. */
  lemma OrderIff(s: System, a: Order)
    requires Books(s) && Lawful(s)
    ensures ApplySettler(s, SettlerIx.ExecuteOrder(a)).Ok?
       <==> Quoted(s, a) && Matched(s, a) && Collateralised(s, a) && Affordable(s, a)
  {
    hide Inv, SettlerInv, Lawful, CheckOrder, FillOrder, ComputePremiumSplit, SignedFor, Payoff.Worth;
    BooksBasics(s);
    CheckIff(s, a);
    ChargeIff(s, a);
    SplitIsExact(a.amount, a.bidPrice, s.settler.feeBps);
    var q := a.Fill();
    if CheckOrder(s, a).Pass? && UpdateFill(FillOf(s, q), a.amount, a.maxAmount).Ok?
       && ComputePremiumSplit(a.amount, a.bidPrice, s.settler.feeBps).Ok? {
      var split := ComputePremiumSplit(a.amount, a.bidPrice, s.settler.feeBps).value;
      SplitValues(a.amount, a.bidPrice, s.settler.feeBps, split);
      var filled := s.(fills := s.fills[q := UpdateFill(FillOf(s, q), a.amount, a.maxAmount).value]);
      FillsApart(s, filled, a);
      FilledIff(filled, a, split);
    }
  }

  lemma SplitValues(amount: u64, bidPrice: u64, feeBps: u16, split: Split)
    requires Charged(amount, bidPrice, feeBps, split)
    ensures split.premium == amount * bidPrice / 100_000_000
    ensures split.fee == split.premium * feeBps / 10_000 && split.net == split.premium - split.fee
  {
    Quotient(amount * bidPrice, 100_000_000, split.premium);
    Quotient(split.premium * feeBps, 10_000, split.fee);
  }

  /** The fill record has no part in the rest of the order. */
  lemma FillsApart(s: System, t: System, a: Order)
    requires Books(s) && Lawful(s) && t == s.(fills := t.fills)
    ensures Inv(t) && AttributionsOk(t) && Backed(t, a.otoken) && Lawful(t)
    ensures Collateralised(t, a) == Collateralised(s, a) && PassedRight(t, a) == PassedRight(s, a)
    ensures t.Funds(a.accounts.mmPremium) == s.Funds(a.accounts.mmPremium)
  {
    hide Inv, Lawful, DriftOk, QuoteOk, FillsWritten, Attributed, Payoff.Worth;
    InvVaultIds(s);
    QuietStep(s, t);
    SameTokens(s, t);
    assert Backed(s, a.otoken);
    assert CustodyMap(t, a.otoken) == CustodyMap(s, a.otoken);
  }

  // ---------------------------------------------------------------- cash redemption

  /** What both cash routes need: the maker's custody and the right accounts, a
      priced series, and what is due in the pool account passed. */
  ghost predicate Cashable(s: System, c: CustodyKey, x: RedeemAccounts, amount: nat, credited: nat) {
    && c in s.custody && c.otoken in s.series
    && var o := s.series[c.otoken];
    && o.price > 0 && !s.config.fullyPaused
    && x.settlerOtoken.owner == x.settlerCollateral.owner == SettlerPda && x.settlerOtoken.mint == c.otoken
    && x.settlerCollateral.mint == x.mmCollateral.mint == x.pool.mint == o.collateralMint
    && x.mmCollateral.owner == Wallet(c.maker) && x.pool.owner == PoolAuthority(o.collateralMint)
    && 0 < amount <= s.custody[c] && amount <= s.Funds(x.settlerOtoken)
    && (Due(o, amount) == 0 || credited <= Due(o, amount) <= s.Funds(x.pool))
  }

  /** A ledger entry debited leaves the tokens alone. */
  lemma LedgersApart(s: System, t: System)
    requires Inv(s) && Lawful(s) && t == s.(custody := t.custody, attributions := t.attributions)
    ensures Inv(t) && Lawful(t) && forall a :: t.Funds(a) == s.Funds(a)
  {
    hide Inv, Lawful;
    InvVaultIds(s);
    QuietStep(s, t);
    SameTokens(s, t);
  }

  lemma CashLegIff(s: System, c: CustodyKey, x: RedeemAccounts, amount: u64, credited: nat)
    requires Inv(s) && Lawful(s) && CheckRedeemAccounts(s, c, x).Pass?
    ensures CashLeg(s, c, x, amount, credited).Ok? <==> Cashable(s, c, x, amount, credited)
  {
    hide Inv, Lawful, Controller.Redeem, Due;
    if amount <= s.custody[c] {
      var debited := s.(custody := s.custody[c := s.custody[c] - amount]);
      LedgersApart(s, debited);
      RedeemIff(debited, SettlerPda, c.otoken, x.settlerOtoken, x.settlerCollateral, x.pool, amount, credited);
    }
  }

  /** What arrived can always be passed on. */
  lemma ForwardIff(s: System, c: CustodyKey, x: RedeemAccounts, amount: u64, credited: nat)
    requires Inv(s) && Lawful(s) && CheckRedeemAccounts(s, c, x).Pass?
    ensures RedeemAndForward(s, c, x, amount, credited).Ok? <==> CashLeg(s, c, x, amount, credited).Ok?
  {
    hide Inv, Lawful, Controller.Redeem, Transfer, GetPayout;
    if CashLeg(s, c, x, amount, credited).Ok? {
      var debited := s.(custody := s.custody[c := s.custody[c] - amount]);
      LedgersApart(s, debited);
      RedeemFunds(debited, SettlerPda, c.otoken, x.settlerOtoken, x.settlerCollateral, x.pool, amount, credited);
      RedeemPool(debited, SettlerPda, c.otoken, x.settlerOtoken, x.settlerCollateral, x.pool, amount, credited);
      RedeemLawful(debited, SettlerPda, c.otoken, x.settlerOtoken, x.settlerCollateral, x.pool, amount, credited);
      InvSeriesOk(s, c.otoken);
      var r := CashLeg(s, c, x, amount, credited).value;
      var payout := r.Funds(x.settlerCollateral) - s.Funds(x.settlerCollateral);
      HeldWithinSupply(r, PurseOf(x.settlerCollateral));
      if payout > 0 {
        TransferIff(r, SettlerPda, x.settlerCollateral, x.mmCollateral, payout, payout);
      }
    }
  }

  lemma CheckedCash(s: System, c: CustodyKey, x: RedeemAccounts, amount: nat, credited: nat)
    requires Cashable(s, c, x, amount, credited)
    ensures CheckRedeemAccounts(s, c, x).Pass?
  {
  }

  /** The operator's route: any time the series is priced, unless the settler is
      paused. */
  lemma RedeemForIff(s: System, operator: Key, c: CustodyKey, x: RedeemAccounts, amount: u64, credited: nat)
    requires Books(s) && Lawful(s)
    ensures ApplySettler(s, SettlerIx.RedeemForMM(operator, c, x, amount, credited)).Ok?
       <==> operator == s.settler.operator && !s.settler.paused && Cashable(s, c, x, amount, credited)
  {
    hide Inv, SettlerInv, Lawful, RedeemAndForward, CashLeg, Due;
    BooksBasics(s);
    if CheckRedeemAccounts(s, c, x).Pass? {
      ForwardIff(s, c, x, amount, credited);
      CashLegIff(s, c, x, amount, credited);
    } else if Cashable(s, c, x, amount, credited) {
      CheckedCash(s, c, x, amount, credited);
    }
  }

  /** The maker's own route: exactly from the owner's configured delay after expiry
      on, whether the settler is paused or not. */
  lemma SelfRedeemIff(s: System, maker: Key, otoken: Key, x: RedeemAccounts, amount: u64, credited: nat)
    requires Books(s) && Lawful(s)
    ensures ApplySettler(s, SettlerIx.MMSelfRedeem(maker, otoken, x, amount, credited)).Ok?
       <==> && maker in s.makers && s.makers[maker].whitelisted && Cashable(s, CustodyKey(maker, otoken), x, amount, credited)
            && s.series[otoken].expiry + s.settler.escapeDelay <= s.now
  {
    hide Inv, SettlerInv, Lawful, RedeemAndForward, CashLeg, Due;
    BooksBasics(s);
    var c := CustodyKey(maker, otoken);
    if CheckRedeemAccounts(s, c, x).Pass? {
      ForwardIff(s, c, x, amount, credited);
      CashLegIff(s, c, x, amount, credited);
    } else if Cashable(s, c, x, amount, credited) {
      CheckedCash(s, c, x, amount, credited);
    }
  }

  // ---------------------------------------------------------------- settlement and exit

  lemma SettleForIff(s: System, operator: Key, signer: Key, k: VaultKey, pool: Account, to: Account, credited: nat)
    requires Inv(s) && Lawful(s)
    ensures ApplySettler(s, SettlerIx.SettleVaultForMaker(operator, signer, k, pool, to, credited)).Ok?
       <==> operator == s.settler.operator && MaySettle(s, signer, k, pool, to, credited)
  {
    hide Inv, Lawful, Controller.Settle, MaySettle;
    SettleIff(s, signer, k, pool, to, credited);
  }

  /** The settler's exit: by the beneficiary, of a vault of the settler's, with the
      maker and series it is attributed to, the burn in the custody account passed
      and the rest as for a direct exit. */
  ghost predicate MayExit(s: System, signer: Key, k: VaultKey, maker: Key, otoken: Key, settlerOtoken: Account,
                          pool: Account, to: Account, credited: nat) {
    && k.owner == SettlerPda && k in s.attributions && s.attributions[k].maker == maker && s.attributions[k].otoken == otoken
    && settlerOtoken.owner == SettlerPda && settlerOtoken.mint == otoken && BurnAmount(s, k) <= s.Funds(settlerOtoken)
    && MayWithdraw(s, k, pool, to, credited) && s.vaults[k].beneficiary == Wallet(signer)
  }

  lemma ClearIff(s: System, k: VaultKey, c: CustodyKey, from: Account)
    requires Lawful(s) && k in s.attributions && c in s.custody && c == CustodyKey(s.attributions[k].maker, s.attributions[k].otoken)
    requires PurseOf(from) == CustodyPurse(c.otoken)
    ensures ClearCustody(s, k, c, from).Ok? <==> BurnAmount(s, k) <= s.Funds(from)
    ensures ClearCustody(s, k, c, from).Ok? ==>
      var t := ClearCustody(s, k, c, from).value;
      Lawful(t) && t.vaults == s.vaults && t.config == s.config && forall a | a != from :: t.Funds(a) == s.Funds(a)
  {
    hide Lawful, Burn;
    HeldWithinSupply(s, PurseOf(from));
    if 0 < BurnAmount(s, k) <= s.Funds(from) {
      BurnGoes(s, SettlerPda, from, BurnAmount(s, k));
      BurnMoves(s, SettlerPda, from, BurnAmount(s, k));
      BurnFunds(s, SettlerPda, from, BurnAmount(s, k));
      BurnLawful(s, SettlerPda, from, BurnAmount(s, k));
      SameTokens(Burn(s, SettlerPda, from, BurnAmount(s, k)).value, ClearCustody(s, k, c, from).value);
    } else if BurnAmount(s, k) > 0 {
      Theorems.BurnRefused(s, SettlerPda, from, BurnAmount(s, k));
    } else {
      SameTokens(s, ClearCustody(s, k, c, from).value);
    }
  }

  lemma ExitIff(s: System, signer: Key, k: VaultKey, maker: Key, otoken: Key, settlerOtoken: Account,
                pool: Account, to: Account, credited: nat)
    requires Books(s) && Lawful(s)
    ensures ApplySettler(s, SettlerIx.EmergencyWithdrawOrder(signer, k, maker, otoken, settlerOtoken, pool, to, credited)).Ok?
       <==> MayExit(s, signer, k, maker, otoken, settlerOtoken, pool, to, credited)
  {
    hide Inv, DriftOk, Backed, QuoteOk, FillsWritten, Attributed, Lawful, ClearCustody, Controller.EmergencyWithdrawVault, BurnAmount;
    var c := CustodyKey(maker, otoken);
    if k in s.attributions && s.attributions[k].maker == maker && s.attributions[k].otoken == otoken
       && PurseOf(settlerOtoken) == CustodyPurse(otoken) {
      assert c in s.custody;
      ClearIff(s, k, c, settlerOtoken);
      if ClearCustody(s, k, c, settlerOtoken).Ok? {
        WithdrawIff(ClearCustody(s, k, c, settlerOtoken).value, SettlerPda, k.id, pool, to, credited);
      }
    }
  }

  // ---------------------------------------------------------------- delivery

  /** The terms of a delivery, in the fields of the series: a put in the money
      delivers the underlying and leaves the maker collateral, a call in the money
      delivers the strike asset and leaves the maker the rest of it. */
  ghost predicate Deliverable(s: System, d: Delivery) {
    var c, x := d.custody, d.accounts;
    && d.operator == s.settler.operator && !s.settler.paused && d.amount > 0
    && c in s.custody && c.otoken in s.series
    && var o := s.series[c.otoken];
    && 0 < o.price && o.expiry <= s.now && (if o.isPut then o.price < o.strike else o.strike < o.price)
    && d.vault in s.vaults && s.vaults[d.vault].otoken == c.otoken && s.vaults[d.vault].beneficiary == Wallet(d.user)
    && d.vault in s.attributions && s.attributions[d.vault].maker == c.maker
    && x.settlerOtoken.owner == x.settlerCollateral.owner == x.settlerContra.owner == SettlerPda
    && x.settlerOtoken.mint == c.otoken && x.settlerCollateral.mint == o.collateralMint
    && x.userContra.owner == Wallet(d.user) && x.mmCollateral.owner == Wallet(c.maker)
    && d.contraMint == x.settlerContra.mint == x.userContra.mint == (if o.isPut then o.underlying else o.strikeAsset)
    && x.mmCollateral.mint == (if o.isPut then o.collateralMint else o.strikeAsset)
  }

  lemma TermsIff(s: System, d: Delivery, contra: u64)
    requires AttributionsOk(s)
    ensures DeliveryTerms(s, d) == Ok(contra)
       <==> Deliverable(s, d) && Owed(d.amount, s.series[d.custody.otoken].strike, s.series[d.custody.otoken].isPut, d.contraDecimals, contra)
  {
    hide ComputeContraAmount, Owed, TrailOf;
    if d.custody.otoken in s.series {
      var o := s.series[d.custody.otoken];
      ContraIsOwed(d.amount, o.strike, o.isPut, d.contraDecimals, contra);
    }
    if d.vault in s.attributions {
      assert Attributed(s.vaults[d.vault], s.attributions[d.vault], s.series, TrailOf(s.log, d.vault));
    }
  }

  /** With the right asset in the accounts passed, the asset is never what a
      delivery is refused for. */
  lemma RightAssetNeverRefused(s: System, d: Delivery)
    requires d.custody.otoken in s.series
    requires var o := s.series[d.custody.otoken];
             d.contraMint == d.accounts.settlerContra.mint == d.accounts.userContra.mint == (if o.isPut then o.underlying else o.strikeAsset)
    ensures DeliveryTerms(s, d) != Err(InvalidContraMint)
  {
    hide ComputeContraAmount;
    var o := s.series[d.custody.otoken];
    ContraErrors(d.amount, o.strike, o.isPut, d.contraDecimals);
  }

  lemma ContraErrors(amount: u64, strike: u64, isPut: bool, decimals: u8)
    ensures ComputeContraAmount(amount, strike, isPut, decimals) != Err(InvalidContraMint)
  {
  }

  /** Debits and redemption: both ledgers have the amount, and the accounts passed
      what is burned and due. */
  ghost predicate LegFunded(s: System, d: Delivery)
    requires d.custody in s.custody && d.vault in s.attributions && d.custody.otoken in s.series
  {
    var o, x := s.series[d.custody.otoken], d.accounts;
    && d.amount <= s.custody[d.custody] && d.amount <= s.attributions[d.vault].remaining && d.amount <= s.Funds(x.settlerOtoken)
    && !s.config.fullyPaused && x.pool.owner == PoolAuthority(o.collateralMint) && x.pool.mint == o.collateralMint
    && (Due(o, d.amount) == 0 || d.credited <= Due(o, d.amount) <= s.Funds(x.pool))
  }

  lemma LegIff(s: System, d: Delivery)
    requires Inv(s) && Lawful(s) && Deliverable(s, d)
    ensures RedeemLeg(s, d).Ok? <==> LegFunded(s, d)
    ensures RedeemLeg(s, d).Ok? ==>
      var r, x := RedeemLeg(s, d).value, d.accounts;
      && Lawful(r) && r.settler == s.settler
      && r.Funds(x.settlerCollateral) == s.Funds(x.settlerCollateral) + (if Due(s.series[d.custody.otoken], d.amount) > 0 then d.credited else 0)
  {
    hide Inv, Lawful, Controller.Redeem, Due, GetPayout;
    var c, x := d.custody, d.accounts;
    InvSeriesOk(s, c.otoken);
    if d.amount <= s.custody[c] && d.amount <= s.attributions[d.vault].remaining {
      var mm := s.attributions[d.vault];
      var debited := s.(custody := s.custody[c := s.custody[c] - d.amount],
                        attributions := s.attributions[d.vault := mm.(remaining := mm.remaining - d.amount)]);
      LedgersApart(s, debited);
      RedeemIff(debited, SettlerPda, c.otoken, x.settlerOtoken, x.settlerCollateral, x.pool, d.amount, d.credited);
      if RedeemLeg(s, d).Ok? {
        RedeemFunds(debited, SettlerPda, c.otoken, x.settlerOtoken, x.settlerCollateral, x.pool, d.amount, d.credited);
        RedeemLawful(debited, SettlerPda, c.otoken, x.settlerOtoken, x.settlerCollateral, x.pool, d.amount, d.credited);
        RedeemMoves(debited, SettlerPda, c.otoken, x.settlerOtoken, x.settlerCollateral, x.pool, d.amount, d.credited);
        assert s.series[c.otoken].Payout(d.amount).value == Due(s.series[c.otoken], d.amount) by {
          PayoutIsDue(s, c.otoken, d.amount);
        }
      }
    }
  }

  /** What the route may have done: a put's user has the contra asset and the
      settler none of it; a call's settler has it and the user none yet. */
  ghost predicate Outcome(s: System, r: System, w: System, d: Delivery, isPut: bool, contra: nat) {
    var x := d.accounts;
    var received := r.Funds(x.settlerCollateral) - s.Funds(x.settlerCollateral);
    var used := r.Funds(x.settlerCollateral) - w.Funds(x.settlerCollateral);
    && 0 <= used <= d.maxCollateralSpent
    && (isPut ==> && 0 < used <= received && w.Funds(x.settlerContra) == s.Funds(x.settlerContra)
                  && w.Funds(x.userContra) >= s.Funds(x.userContra) + contra)
    && (!isPut ==> && used == received && w.Funds(x.userContra) == s.Funds(x.userContra)
                   && w.Funds(x.settlerContra) >= s.Funds(x.settlerContra) + contra)
  }

  lemma DeliverIff(s: System, r: System, w: System, d: Delivery, o: Series, received: nat, contra: u64)
    requires Lawful(w) && received == r.Funds(d.accounts.settlerCollateral) - s.Funds(d.accounts.settlerCollateral)
    requires d.accounts.settlerCollateral.owner == d.accounts.settlerContra.owner == SettlerPda
    requires d.accounts.userContra.owner.Wallet? && d.accounts.mmCollateral.owner.Wallet?
    requires d.accounts.settlerContra.mint == d.accounts.userContra.mint
    requires d.accounts.mmCollateral.mint == if o.isPut then d.accounts.settlerCollateral.mint else d.accounts.settlerContra.mint
    ensures Deliver(s, r, w, d, o, received, contra).Ok? <==> Outcome(s, r, w, d, o.isPut, contra)
  {
    hide Lawful, Transfer;
    var x := d.accounts;
    var used := r.Funds(x.settlerCollateral) - w.Funds(x.settlerCollateral);
    HeldWithinSupply(w, PurseOf(x.settlerCollateral));
    HeldWithinSupply(w, PurseOf(x.settlerContra));
    if o.isPut {
      if received > used {
        TransferIff(w, SettlerPda, x.settlerCollateral, x.mmCollateral, received - used, received - used);
      }
    } else {
      TransferIff(w, SettlerPda, x.settlerContra, x.userContra, contra, contra);
      if contra <= w.Funds(x.settlerContra) - s.Funds(x.settlerContra) {
        CallServed(s, w, d, contra);
      }
    }
  }

  /** Once the user is served, the rest can be passed on. */
  lemma CallServed(s: System, w: System, d: Delivery, contra: u64)
    requires Lawful(w) && contra <= w.Funds(d.accounts.settlerContra) - s.Funds(d.accounts.settlerContra)
    requires d.accounts.settlerContra.owner == SettlerPda && d.accounts.userContra.owner.Wallet?
    requires d.accounts.settlerContra.mint == d.accounts.userContra.mint == d.accounts.mmCollateral.mint
    ensures var x := d.accounts;
            var rest := w.Funds(x.settlerContra) - s.Funds(x.settlerContra) - contra;
            var served := Transfer(w, SettlerPda, x.settlerContra, x.userContra, contra, contra);
            served.Ok? && Transfer(served.value, SettlerPda, x.settlerContra, x.mmCollateral, rest, rest).Ok?
  {
    hide Lawful, Transfer;
    var x := d.accounts;
    HeldWithinSupply(w, PurseOf(x.settlerContra));
    TransferIff(w, SettlerPda, x.settlerContra, x.userContra, contra, contra);
    var served := Transfer(w, SettlerPda, x.settlerContra, x.userContra, contra, contra).value;
    TransferFunds(w, SettlerPda, x.settlerContra, x.userContra, contra, contra);
    TransferLawful(w, SettlerPda, x.settlerContra, x.userContra, contra, contra);
    HeldWithinSupply(served, PurseOf(x.settlerContra));
    var rest := w.Funds(x.settlerContra) - s.Funds(x.settlerContra) - contra;
    TransferIff(served, SettlerPda, x.settlerContra, x.mmCollateral, rest, rest);
  }

  /** A delivery after its terms: funded, something redeemed and credited, the
      configured swap program, a route that runs, and its outcome. */
  ghost predicate DeliveredBy(s: System, d: Delivery, contra: nat)
    requires Deliverable(s, d)
  {
    && LegFunded(s, d) && Due(s.series[d.custody.otoken], d.amount) > 0 && d.credited > 0
    && d.jupiter == s.settler.jupiter
    && RedeemLeg(s, d).Ok? && Travel(RedeemLeg(s, d).value, d, d.route).Ok?
    && Outcome(s, RedeemLeg(s, d).value, Travel(RedeemLeg(s, d).value, d, d.route).value, d, s.series[d.custody.otoken].isPut, contra)
  }

  lemma RestIff(s: System, d: Delivery, contra: u64)
    requires Inv(s) && Lawful(s) && Deliverable(s, d)
    ensures RedeemAndDeliver(s, d, contra).Ok? <==> DeliveredBy(s, d, contra)
  {
    hide Inv, Lawful, RedeemLeg, Travel, Deliver, Due, LegFunded, Outcome;
    LegIff(s, d);
    if RedeemLeg(s, d).Ok? {
      var r := RedeemLeg(s, d).value;
      var received := r.Funds(d.accounts.settlerCollateral) - s.Funds(d.accounts.settlerCollateral);
      if Travel(r, d, d.route).Ok? {
        TravelLawful(r, d, d.route);
        DeliverIff(s, r, Travel(r, d, d.route).value, d, s.series[d.custody.otoken], received, contra);
      }
    }
  }

  /** Exactly when a delivery goes through. */
  lemma DeliveryIff(s: System, d: Delivery)
    requires Books(s) && Lawful(s)
    ensures ApplySettler(s, SettlerIx.PhysicalRedeem(d)).Ok?
       <==> && Deliverable(s, d)
            && exists contra: u64 ::
                 && Owed(d.amount, s.series[d.custody.otoken].strike, s.series[d.custody.otoken].isPut, d.contraDecimals, contra)
                 && DeliveredBy(s, d, contra)
  {
    hide Inv, DriftOk, Backed, QuoteOk, FillsWritten, AttributionsOk, Lawful, DeliveryTerms, RedeemAndDeliver, Owed, DeliveredBy, Deliverable;
    forall contra: u64
      ensures DeliveryTerms(s, d) == Ok(contra)
         <==> Deliverable(s, d) && d.custody.otoken in s.series
              && Owed(d.amount, s.series[d.custody.otoken].strike, s.series[d.custody.otoken].isPut, d.contraDecimals, contra)
      ensures Deliverable(s, d) ==> d.custody.otoken in s.series && (RedeemAndDeliver(s, d, contra).Ok? <==> DeliveredBy(s, d, contra))
    {
      TermsIff(s, d, contra);
      DeliverableSeries(s, d);
      if Deliverable(s, d) {
        RestIff(s, d, contra);
      }
    }
  }

  lemma DeliverableSeries(s: System, d: Delivery)
    ensures Deliverable(s, d) ==> d.custody.otoken in s.series
  {
  }
}
