/** Who may change what: for every kind of account, what any instruction of any
    program leaves of it, in the fields of the instruction and of the accounts. */
module Authority {
  import opened Wrappers
  import opened Ints
  import opened Payoff
  import opened Model
  import opened Tokens
  import opened Settler
  import opened SettlerBooks
  import opened OrderSteps
  import opened CustodySteps
  import opened DeliverySteps
  import opened PoolBooks
  import opened TokenLaw
  import opened Machine
  import opened Invariants
  import opened Progress
  import opened Frames
  import opened Conditions
  import opened SettlerConditions
  import Theorems
  import Controller
  import Oracle

  // ---------------------------------------------------------------- configurations

  /** The settler's configuration is its owner's: a fee of at most 2000
      ten-thousandths, a delay of at least three days, no zero addresses. */
  ghost function SettingsAfter(c: SettlerConfig, i: Instruction): SettlerConfig {
    match i
    case ToSettler(SetProtocolFee(signer, bps)) => if signer == c.owner && bps <= 2000 then c.(feeBps := bps) else c
    case ToSettler(SetEscapeDelay(signer, delay)) => if signer == c.owner && 259_200 <= delay then c.(escapeDelay := delay) else c
    case ToSettler(SetOperator(signer, operator)) => if signer == c.owner && operator != 0 then c.(operator := operator) else c
    case ToSettler(SetJupiterProgram(signer, jupiter)) => if signer == c.owner && jupiter != 0 then c.(jupiter := jupiter) else c
    case ToSettler(SetTreasury(signer, treasury)) =>
      if signer == c.owner && treasury != Wallet(0) then c.(treasury := treasury) else c
    case ToSettler(Pause(signer, flag)) => if signer == c.owner then c.(paused := flag) else c
    case _ => c
  }

  lemma SetterSets(s: System, i: SettlerIx)
    requires Sets(ToSettler(i))
    ensures var r := ApplySettler(s, i);
            SettingsAfter(s.settler, ToSettler(i)) == if r.Ok? then r.value.settler else s.settler
  {
    hide Settler.WhitelistMaker, Settler.IncrementNonce, Settler.CancelQuote, Settler.ExecuteOrder, Settler.SettleVault,
         Settler.EmergencyWithdraw, Settler.RedeemForMM, Settler.MMSelfRedeem, Settler.PhysicalRedeem, Controller.InitializeCounter;
  }

  lemma SettingsFollow(s: System, i: Instruction)
    requires Books(s)
    ensures Step(s, i).settler == SettingsAfter(s.settler, i)
  {
    hide Books, ApplyController, ApplySettler, ApplyOracle, ApplyWorld;
    if Sets(i) {
      hide SettingsAfter;
      SetterSets(s, i.settler);
    } else {
      hide Apply;
      StepFrame(s, i);
    }
  }

  /** The controller's pauses: the admin's, and the partial one the pauser's too. */
  ghost function PausesAfter(c: ControllerConfig, i: Instruction): ControllerConfig {
    match i
    case ToController(SetPartialPauser(signer, pauser)) =>
      if signer == c.admin && pauser != 0 then c.(partialPauser := pauser) else c
    case ToController(SetPartiallyPaused(signer, flag)) =>
      if signer in {c.admin, c.partialPauser} then c.(partiallyPaused := flag) else c
    case ToController(SetFullyPaused(signer, flag)) => if signer == c.admin then c.(fullyPaused := flag) else c
    case _ => c
  }

  lemma PauserPauses(s: System, i: ControllerIx)
    requires Pauses(ToController(i))
    ensures var r := ApplyController(s, i);
            PausesAfter(s.config, ToController(i)) == if r.Ok? then r.value.config else s.config
  {
    hide Controller.InitializeCounter, Controller.OpenVault, Controller.Deposit, Controller.Mint, Controller.Settle,
         Controller.Redeem, Controller.EmergencyWithdrawVault, Controller.CreateSeries, Controller.SetExpiryPrice;
  }

  lemma PausesFollow(s: System, i: Instruction)
    requires Books(s)
    ensures Step(s, i).config == PausesAfter(s.config, i)
  {
    hide Books, ApplyController, ApplySettler, ApplyOracle, ApplyWorld;
    if Pauses(i) {
      hide PausesAfter;
      PauserPauses(s, i.controller);
    } else {
      hide Apply;
      StepFrame(s, i);
    }
  }

  /** The oracle's configuration: the admin's, who hands over in two steps. */
  ghost function OracleAfter(c: OracleConfig, i: Instruction): OracleConfig {
    match i
    case ToOracle(SetOracleOperator(signer, operator)) => if signer == c.admin && operator != 0 then c.(operator := operator) else c
    case ToOracle(TransferOwnership(signer, next)) => if signer == c.admin && next != 0 then c.(pendingAdmin := next) else c
    case ToOracle(AcceptOwnership(signer)) => if signer == c.pendingAdmin then c.(admin := signer, pendingAdmin := 0) else c
    case ToOracle(SetThreshold(signer, bps)) => if signer == c.admin && 0 < bps then c.(thresholdBps := bps) else c
    case ToOracle(SetLimits(signer, age, bps)) =>
      if signer == c.admin then c.(maxStaleness := age, maxConfidenceBps := bps) else c
    case _ => c
  }

  /** Feeds are the admin's: registered once as active, then switched. */
  ghost function FeedsAfter(s: System, i: Instruction): map<Key, Feed> {
    match i
    case ToOracle(RegisterFeed(signer, asset, id)) =>
      if signer == s.oracle.admin && asset !in s.feeds then s.feeds[asset := Feed(id, true)] else s.feeds
    case ToOracle(SetFeedActive(signer, asset, flag)) =>
      if signer == s.oracle.admin && asset in s.feeds then s.feeds[asset := Feed(s.feeds[asset].feedId, flag)] else s.feeds
    case ToOracle(DeregisterFeed(signer, asset)) =>
      if signer == s.oracle.admin && asset in s.feeds then s.feeds[asset := Feed(s.feeds[asset].feedId, false)] else s.feeds
    case _ => s.feeds
  }

  /** A price is written once, by admin or operator, at or after expiry, and is the
      price submitted. */
  ghost function PricesAfter(s: System, i: Instruction): map<PriceKey, u64> {
    match i
    case ToOracle(FinalizePrice(signer, asset, expiry, price, a)) =>
      if MayFinalize(s, signer, asset, expiry, price, a) then s.prices[PriceKey(asset, expiry) := price] else s.prices
    case _ => s.prices
  }

  ghost predicate OracleLeaves(s: System, t: System, i: Instruction) {
    t.oracle == OracleAfter(s.oracle, i) && t.feeds == FeedsAfter(s, i) && t.prices == PricesAfter(s, i)
  }

  lemma OracleAnswers(s: System, i: OracleIx)
    requires s.oracle.thresholdBps > 0
    ensures var r := ApplyOracle(s, i);
            OracleLeaves(s, if r.Ok? then r.value else s, ToOracle(i))
  {
    hide Oracle.SetExpiryPrice, MayFinalize;
    if i.FinalizePrice? {
      FinalizeIff(s, i.signer, i.underlying, i.expiry, i.price, i.account);
    }
  }

  lemma OracleFollows(s: System, i: Instruction)
    requires Books(s) && s.oracle.thresholdBps > 0
    ensures OracleLeaves(s, Step(s, i), i)
  {
    hide Books, MayFinalize, ApplyController, ApplySettler, ApplyOracle, ApplyWorld;
    if i.ToOracle? {
      hide OracleLeaves;
      OracleAnswers(s, i.oracle);
    } else {
      hide Apply;
      StepFrame(s, i);
    }
  }

  // ---------------------------------------------------------------- series

  /** A series is recorded once, as the factory has it and without a price, by the
      controller's admin or the factory's operator; the admin copies the oracle's
      price into it once. */
  ghost function SeriesAfter(s: System, i: Instruction): map<Key, Series> {
    match i
    case ToController(CreateOTokenInfo(signer, isOperator, otoken, info)) =>
      if otoken !in s.series && (signer == s.config.admin || isOperator) && info.strike > 0 && info.decimals <= 18
         && otoken !in {0, info.collateralMint, info.underlying, info.strikeAsset} && s.Supply(otoken) == 0
      then s.series[otoken := info.(price := 0)] else s.series
    case ToController(SetSeriesPrice(signer, otoken)) =>
      if signer == s.config.admin && otoken in s.series && s.series[otoken].price == 0
         && PriceKey(s.series[otoken].underlying, s.series[otoken].expiry) in s.prices
      then s.series[otoken := s.series[otoken].(price := s.prices[PriceKey(s.series[otoken].underlying, s.series[otoken].expiry)])]
      else s.series
    case _ => s.series
  }

  lemma SeriesFollow(s: System, i: Instruction)
    requires Books(s) && PricesDue(s)
    ensures Step(s, i).series == SeriesAfter(s, i)
  {
    hide Books;
    if Lists(i) {
      hide ApplyController, ApplySettler, ApplyOracle, ApplyWorld, PricesDue;
      match i.controller
      case CreateOTokenInfo(signer, isOperator, otoken, info) => CreateIff(s, signer, isOperator, otoken, info);
      case SetSeriesPrice(signer, otoken) => SeriesPriceIff(s, signer, otoken);
    } else {
      hide Apply;
      StepFrame(s, i);
    }
  }

  // ---------------------------------------------------------------- makers and quotes

  /** The owner whitelists; only a maker raises its nonce, by one. */
  ghost function MakersAfter(s: System, i: Instruction): map<Key, MakerState> {
    match i
    case ToSettler(WhitelistMaker(signer, maker, flag)) =>
      if signer == s.settler.owner
      then s.makers[maker := MakerState(if maker in s.makers then s.makers[maker].nonce else 0, flag)] else s.makers
    case ToSettler(IncrementMakerNonce(maker)) =>
      if maker in s.makers && s.makers[maker].nonce < MAX64
      then s.makers[maker := MakerState(s.makers[maker].nonce + 1, s.makers[maker].whitelisted)] else s.makers
    case _ => s.makers
  }

  lemma MakerMoves(s: System, i: SettlerIx)
    requires MovesMakers(ToSettler(i))
    ensures var r := ApplySettler(s, i);
            MakersAfter(s, ToSettler(i)) == if r.Ok? then r.value.makers else s.makers
  {
    hide Settler.CancelQuote, Settler.ExecuteOrder, Settler.SettleVault, Settler.EmergencyWithdraw, Settler.RedeemForMM,
         Settler.MMSelfRedeem, Settler.PhysicalRedeem, Settler.SetProtocolFee, Settler.SetEscapeDelay, Settler.SetTreasury,
         Settler.SetPaused, Settler.SetOperator, Settler.SetJupiterProgram, Controller.InitializeCounter;
  }

  lemma MakersFollow(s: System, i: Instruction)
    requires Books(s)
    ensures Step(s, i).makers == MakersAfter(s, i)
  {
    hide Books, ApplyController, ApplySettler, ApplyOracle, ApplyWorld;
    if MovesMakers(i) {
      hide MakersAfter;
      MakerMoves(s, i.settler);
    } else {
      hide Apply;
      StepFrame(s, i);
    }
  }

  ghost predicate OrderAllowed(s: System, a: Order) {
    Quoted(s, a) && Matched(s, a) && Collateralised(s, a) && Affordable(s, a)
  }

  ghost function FilledOf(s: System, q: QuoteKey): u64 { if q in s.fills then s.fills[q].filled else 0 }

  /** A maker cancels its quote of that id under its current nonce; only an
      executed order adds to a fill, by its amount. */
  ghost function FillsAfter(s: System, i: Instruction): map<QuoteKey, QuoteFill> {
    match i
    case ToSettler(CancelQuote(maker, id)) =>
      if maker in s.makers
      then s.fills[QuoteKey(maker, s.makers[maker].nonce, id) := QuoteFill(FilledOf(s, QuoteKey(maker, s.makers[maker].nonce, id)), true)]
      else s.fills
    case ToSettler(ExecuteOrder(a)) =>
      var q := QuoteKey(a.maker, a.nonce, a.quoteId);
      if OrderAllowed(s, a)
      then s.fills[q := QuoteFill(FilledOf(s, q) + a.amount, false)] else s.fills
    case _ => s.fills
  }

  lemma FillsFollow(s: System, i: Instruction)
    requires Books(s) && Lawful(s)
    ensures Step(s, i).fills == FillsAfter(s, i)
  {
    hide Books, Lawful, OrderAllowed, Apply;
    if MovesQuotes(i) {
      hide FillsAfter, Step;
      match i.settler
      case CancelQuote(maker, id) => CancelFollows(s, maker, id);
      case ExecuteOrder(a) => OrderFills(s, a);
    } else {
      StepFrame(s, i);
    }
  }

  lemma OrderFills(s: System, a: Order)
    requires Books(s) && Lawful(s)
    ensures Step(s, ToSettler(SettlerIx.ExecuteOrder(a))).fills == FillsAfter(s, ToSettler(SettlerIx.ExecuteOrder(a)))
  {
    hide Books, Lawful, OrderAllowed, Step;
    OrderFollows(s, a);
  }

  lemma CancelFollows(s: System, maker: Key, id: u64)
    ensures Step(s, ToSettler(SettlerIx.CancelQuote(maker, id))).fills == FillsAfter(s, ToSettler(SettlerIx.CancelQuote(maker, id)))
  {
    hide ApplyController, ApplySettler, ApplyOracle, ApplyWorld;
    QuoteCancels(s, maker, id);
  }

  lemma CancelIff(s: System, maker: Key, id: u64)
    ensures var r := Settler.CancelQuote(s, maker, id);
            && (r.Ok? <==> && maker in s.makers
                           && (QuoteKey(maker, s.makers[maker].nonce, id) in s.fills ==> !s.fills[QuoteKey(maker, s.makers[maker].nonce, id)].cancelled))
            && (r.Ok? ==>
                  var q := QuoteKey(maker, s.makers[maker].nonce, id);
                  r.value == s.(fills := s.fills[q := QuoteFill(FilledOf(s, q), true)]))
  {
  }

  lemma QuoteCancels(s: System, maker: Key, id: u64)
    ensures var r := ApplySettler(s, SettlerIx.CancelQuote(maker, id));
            FillsAfter(s, ToSettler(SettlerIx.CancelQuote(maker, id))) == if r.Ok? then r.value.fills else s.fills
  {
    hide Settler.WhitelistMaker, Settler.IncrementNonce, Settler.CancelQuote, Settler.ExecuteOrder, Settler.SettleVault,
         Settler.EmergencyWithdraw, Settler.RedeemForMM, Settler.MMSelfRedeem, Settler.PhysicalRedeem, Settler.SetProtocolFee,
         Settler.SetEscapeDelay, Settler.SetTreasury, Settler.SetPaused, Settler.SetOperator, Settler.SetJupiterProgram,
         Controller.InitializeCounter, OrderAllowed;
    CancelIff(s, maker, id);
    if maker in s.makers {
      var q := QuoteKey(maker, s.makers[maker].nonce, id);
      if q in s.fills && s.fills[q].cancelled {
        assert s.fills[q := QuoteFill(FilledOf(s, q), true)] == s.fills;
      }
    }
  }

  ghost function CustodyIn(s: System, c: CustodyKey): u64 { if c in s.custody then s.custody[c] else 0 }

  /** The records an executed order leaves: its fill, one vault for the user under
      the settler's next id, attributed to the maker, and the maker's custody. */
  ghost predicate OrderRecorded(s: System, t: System, a: Order) {
    var q, c := QuoteKey(a.maker, a.nonce, a.quoteId), CustodyKey(a.maker, a.otoken);
    && SettlerPda in s.counters
    && var k := VaultKey(SettlerPda, s.counters[SettlerPda]);
    && FilledOf(s, q) + a.amount <= MAX64 && t.fills == s.fills[q := QuoteFill(FilledOf(s, q) + a.amount, false)]
    && t.vaults == s.vaults[k := Vault(a.collateralMint, a.collateralAmount, a.otoken, a.amount, false, Wallet(a.user))]
    && t.attributions == s.attributions[k := VaultMM(a.maker, a.otoken, a.amount)]
    && CustodyIn(s, c) + a.amount <= MAX64 && t.custody == s.custody[c := CustodyIn(s, c) + a.amount]
  }

  lemma OrderFollows(s: System, a: Order)
    requires Books(s) && Lawful(s)
    ensures var t := Step(s, ToSettler(SettlerIx.ExecuteOrder(a)));
            if OrderAllowed(s, a) then OrderRecorded(s, t, a) else t == s
  {
    hide Books, Lawful, Settler.ExecuteOrder, ComputePremiumSplit, Quoted, Matched, Collateralised, Affordable, Paid, Charged,
         OrderLog, ApplyController, ApplyOracle, ApplyWorld;
    OrderIff(s, a);
    if Settler.ExecuteOrder(s, a).Ok? {
      ExecuteOrderEffect(s, a);
      OrderRecords(s, a);
    }
  }

  lemma OrderRecords(s: System, a: Order)
    requires Settler.ExecuteOrder(s, a).Ok?
    ensures OrderRecorded(s, Settler.ExecuteOrder(s, a).value, a)
  {
    hide Settler.ExecuteOrder, ComputePremiumSplit, Paid, Charged, OrderLog;
    ExecuteOrderEffect(s, a);
    OrderCounts(s, a);
  }

  lemma OrderCounts(s: System, a: Order)
    requires Settler.ExecuteOrder(s, a).Ok?
    ensures SettlerPda in s.counters
  {
    hide CheckOrder, ComputePremiumSplit, Attribute, PayPremium, Controller.Deposit, Controller.Mint;
  }

  // ---------------------------------------------------------------- vaults

  /** Wallets open, fund and short their own vaults; the controller's admin settles,
      directly or with the settler's operator; under a full pause the owner, or the
      beneficiary of a settler's vault, leaves. */
  ghost function VaultsAfter(s: System, i: Instruction): map<VaultKey, Vault> {
    match i
    case ToController(OpenVault(owner, mint, beneficiary)) =>
      var w := Wallet(owner);
      if w in s.counters && s.counters[w] < MAX64 && beneficiary != Wallet(0) && Running(s.config)
      then s.vaults[VaultKey(w, s.counters[w]) := Vault(mint, 0, 0, 0, false, beneficiary)] else s.vaults
    case ToController(DepositCollateral(owner, id, from, pool, amount, credited)) =>
      var k := VaultKey(Wallet(owner), id);
      if MayDeposit(s, k, from, pool, amount, credited)
      then s.vaults[k := s.vaults[k].(collateral := s.vaults[k].collateral + amount)] else s.vaults
    case ToController(MintOtoken(owner, id, otoken, to, amount)) =>
      var k := VaultKey(Wallet(owner), id);
      if MayMint(s, k, otoken, to, amount)
      then s.vaults[k := s.vaults[k].(otoken := otoken, short := s.vaults[k].short + amount)] else s.vaults
    case ToController(SettleVault(signer, k, pool, to, credited)) =>
      if MaySettle(s, signer, k, pool, to, credited) then s.vaults[k := s.vaults[k].(settled := true)] else s.vaults
    case ToController(EmergencyWithdrawVault(owner, id, pool, to, credited)) =>
      var k := VaultKey(Wallet(owner), id);
      if MayWithdraw(s, k, pool, to, credited) then s.vaults[k := s.vaults[k].(settled := true)] else s.vaults
    case ToSettler(ExecuteOrder(a)) =>
      if OrderAllowed(s, a)
      then s.vaults[VaultKey(SettlerPda, s.counters[SettlerPda]) :=
                      Vault(a.collateralMint, a.collateralAmount, a.otoken, a.amount, false, Wallet(a.user))] else s.vaults
    case ToSettler(SettleVaultForMaker(operator, signer, k, pool, to, credited)) =>
      if operator == s.settler.operator && MaySettle(s, signer, k, pool, to, credited)
      then s.vaults[k := s.vaults[k].(settled := true)] else s.vaults
    case ToSettler(EmergencyWithdrawOrder(signer, k, maker, otoken, settlerOtoken, pool, to, credited)) =>
      if MayExit(s, signer, k, maker, otoken, settlerOtoken, pool, to, credited)
      then s.vaults[k := s.vaults[k].(settled := true)] else s.vaults
    case _ => s.vaults
  }

  lemma ControllerVaults(s: System, i: ControllerIx)
    requires Books(s) && Lawful(s) && MovesVaults(ToController(i))
    ensures Step(s, ToController(i)).vaults == VaultsAfter(s, ToController(i))
  {
    hide Inv, SettlerInv, Lawful, ApplySettler, ApplyOracle, ApplyWorld, Controller.InitializeCounter, Controller.OpenVault, Controller.Deposit,
         Controller.Mint, Controller.Settle, Controller.Redeem, Controller.EmergencyWithdrawVault, Controller.CreateSeries,
         Controller.SetExpiryPrice, MayDeposit, MayMint, MaySettle, MayWithdraw, GetRequiredCollateral, GetPayout;
    InvVaultIds(s);
    match i
    case OpenVault(owner, mint, beneficiary) => OpenIff(s, owner, mint, beneficiary);
    case DepositCollateral(owner, id, from, pool, amount, credited) =>
      DepositIff(s, owner, id, from, pool, amount, credited);
      if ApplyController(s, i).Ok? { DepositMoves(s, Wallet(owner), id, from, pool, amount, credited); }
    case MintOtoken(owner, id, otoken, to, amount) =>
      MintIff(s, owner, id, otoken, to, amount);
      if ApplyController(s, i).Ok? { MintMoves(s, Wallet(owner), id, otoken, to, amount); }
    case SettleVault(signer, k, pool, to, credited) =>
      SettleIff(s, signer, k, pool, to, credited);
      if ApplyController(s, i).Ok? { SettleMoves(s, signer, k.owner, k.id, pool, to, credited); }
    case EmergencyWithdrawVault(owner, id, pool, to, credited) =>
      WithdrawIff(s, Wallet(owner), id, pool, to, credited);
      if ApplyController(s, i).Ok? { EmergencyMoves(s, Wallet(owner), id, pool, to, credited); }
  }

  lemma SettlerVaults(s: System, i: SettlerIx)
    requires Books(s) && Lawful(s) && MovesVaults(ToSettler(i))
    ensures Step(s, ToSettler(i)).vaults == VaultsAfter(s, ToSettler(i))
  {
    hide Inv, SettlerInv, Lawful, ApplyController, ApplyOracle, ApplyWorld, Settler.ExecuteOrder, Settler.SettleVault, EmergencyWithdraw,
         OrderAllowed, MaySettle, MayExit, GetPayout;
    match i
    case ExecuteOrder(a) => OrderFollows(s, a);
    case SettleVaultForMaker(operator, signer, k, pool, to, credited) =>
      SettleForIff(s, operator, signer, k, pool, to, credited);
      if ApplySettler(s, i).Ok? { SettledFor(s, operator, signer, k, pool, to, credited); }
    case EmergencyWithdrawOrder(signer, k, maker, otoken, settlerOtoken, pool, to, credited) =>
      ExitIff(s, signer, k, maker, otoken, settlerOtoken, pool, to, credited);
      if ApplySettler(s, i).Ok? { ExitEffect(s, signer, k, maker, otoken, settlerOtoken, pool, to, credited); }
  }

  lemma SettledFor(s: System, operator: Key, signer: Key, k: VaultKey, pool: Account, to: Account, credited: nat)
    requires Settler.SettleVault(s, operator, signer, k.owner, k.id, pool, to, credited).Ok?
    ensures k in s.vaults
    ensures Settler.SettleVault(s, operator, signer, k.owner, k.id, pool, to, credited).value.vaults == s.vaults[k := s.vaults[k].(settled := true)]
  {
    hide Controller.Settle, GetPayout;
    SettleMoves(s, signer, k.owner, k.id, pool, to, credited);
  }

  lemma VaultsFollow(s: System, i: Instruction)
    requires Books(s) && Lawful(s)
    ensures Step(s, i).vaults == VaultsAfter(s, i)
  {
    hide Books, Lawful, Apply, OrderAllowed, MayDeposit, MayMint, MaySettle, MayWithdraw, MayExit;
    if MovesVaults(i) {
      hide VaultsAfter;
      match i
      case ToController(c) => ControllerVaults(s, c);
      case ToSettler(b) => SettlerVaults(s, b);
    } else {
      StepFrame(s, i);
    }
  }

  // ---------------------------------------------------------------- custody

  ghost predicate DeliveryAllowed(s: System, d: Delivery) {
    && Deliverable(s, d)
    && exists contra: u64 ::
         && Owed(d.amount, s.series[d.custody.otoken].strike, s.series[d.custody.otoken].isPut, d.contraDecimals, contra)
         && DeliveredBy(s, d, contra)
  }

  ghost predicate SelfRedeemAllowed(s: System, c: CustodyKey, x: RedeemAccounts, amount: nat, credited: nat) {
    && c.maker in s.makers && s.makers[c.maker].whitelisted && Cashable(s, c, x, amount, credited)
    && s.series[c.otoken].expiry + s.settler.escapeDelay <= s.now
  }

  /** A maker's custody grows with its orders; it falls by cash redemptions, the
      operator's or its own, by the operator's deliveries, and by the burns of
      exits. */
  ghost function CustodyAfter(s: System, i: Instruction): map<CustodyKey, int> {
    match i
    case ToSettler(ExecuteOrder(a)) => Moved(s, CustodyKey(a.maker, a.otoken), a.amount, OrderAllowed(s, a))
    case ToSettler(RedeemForMM(operator, c, x, amount, credited)) =>
      Moved(s, c, 0 - amount, operator == s.settler.operator && !s.settler.paused && Cashable(s, c, x, amount, credited))
    case ToSettler(MMSelfRedeem(maker, otoken, x, amount, credited)) =>
      var c := CustodyKey(maker, otoken);
      Moved(s, c, 0 - amount, SelfRedeemAllowed(s, c, x, amount, credited))
    case ToSettler(PhysicalRedeem(d)) => Moved(s, d.custody, 0 - d.amount, DeliveryAllowed(s, d))
    case ToSettler(EmergencyWithdrawOrder(signer, k, maker, otoken, settlerOtoken, pool, to, credited)) =>
      Moved(s, CustodyKey(maker, otoken), 0 - BurnAmount(s, k), MayExit(s, signer, k, maker, otoken, settlerOtoken, pool, to, credited))
    case _ => s.custody
  }

  /** The entry of `c` moved by `delta`, if allowed. */
  ghost function Moved(s: System, c: CustodyKey, delta: int, allowed: bool): map<CustodyKey, int> {
    var m: map<CustodyKey, int> := s.custody;
    if allowed then m[c := CustodyIn(s, c) + delta] else m
  }

  lemma CustodyFollows(s: System, i: Instruction)
    requires Books(s) && Lawful(s)
    ensures Step(s, i).custody == CustodyAfter(s, i)
  {
    hide Books, Lawful, OrderAllowed, DeliveryAllowed, SelfRedeemAllowed, MayExit, Cashable;
    if MovesCustody(i) {
      SettlerCustody(s, i.settler);
    } else {
      hide Apply;
      StepFrame(s, i);
    }
  }

  lemma OrderMoved(s: System, a: Order)
    requires Books(s) && Lawful(s)
    ensures Step(s, ToSettler(SettlerIx.ExecuteOrder(a))).custody == Moved(s, CustodyKey(a.maker, a.otoken), a.amount, OrderAllowed(s, a))
  {
    hide Books, Lawful, Step, OrderAllowed;
    OrderFollows(s, a);
  }

  lemma CashMoved(s: System, t: System, c: CustodyKey, amount: u64, credited: nat)
    requires CashedOut(s, t, c, amount, credited)
    ensures t.custody == Moved(s, c, 0 - amount, true)
  {
    hide GetPayout;
  }

  lemma DeliveryMoved(s: System, t: System, d: Delivery)
    requires Delivered(s, t, d)
    ensures t.custody == Moved(s, d.custody, 0 - d.amount, true)
  {
    hide GetPayout;
  }

  lemma ExitMoved(s: System, i: SettlerIx)
    requires i.EmergencyWithdrawOrder? && ApplySettler(s, i).Ok?
    requires MayExit(s, i.signer, i.vault, i.maker, i.otoken, i.settlerOtoken, i.pool, i.to, i.credited)
    ensures ApplySettler(s, i).value.custody == Moved(s, CustodyKey(i.maker, i.otoken), 0 - BurnAmount(s, i.vault), true)
  {
    hide EmergencyWithdraw, BurnAmount;
    ExitEffect(s, i.signer, i.vault, i.maker, i.otoken, i.settlerOtoken, i.pool, i.to, i.credited);
  }

  lemma SettlerCustody(s: System, i: SettlerIx)
    requires Books(s) && Lawful(s) && MovesCustody(ToSettler(i))
    ensures Step(s, ToSettler(i)).custody == CustodyAfter(s, ToSettler(i))
  {
    hide Inv, SettlerInv, Lawful, ApplyController, ApplyOracle, ApplyWorld, Settler.ExecuteOrder, EmergencyWithdraw, Settler.RedeemForMM,
         Settler.MMSelfRedeem, Settler.PhysicalRedeem, OrderAllowed, DeliveryAllowed, MayExit, Cashable, GetPayout, BurnAmount,
         CashedOut, Delivered, Controller.InitializeCounter, Settler.SettleVault, Settler.WhitelistMaker, Settler.IncrementNonce,
         Settler.CancelQuote, Settler.SetProtocolFee, Settler.SetEscapeDelay, Settler.SetTreasury, Settler.SetPaused,
         Settler.SetOperator, Settler.SetJupiterProgram;
    BooksBasics(s);
    match i
    case ExecuteOrder(a) => OrderMoved(s, a);
    case RedeemForMM(operator, c, x, amount, credited) =>
      RedeemForIff(s, operator, c, x, amount, credited);
      CashRoutesPayExactly(s, operator, c, x, amount, credited);
      if ApplySettler(s, i).Ok? { CashMoved(s, ApplySettler(s, i).value, c, amount, credited); }
    case MMSelfRedeem(maker, otoken, x, amount, credited) =>
      SelfRedeemIff(s, maker, otoken, x, amount, credited);
      CashRoutesPayExactly(s, 0, CustodyKey(maker, otoken), x, amount, credited);
      if ApplySettler(s, i).Ok? { CashMoved(s, ApplySettler(s, i).value, CustodyKey(maker, otoken), amount, credited); }
    case PhysicalRedeem(d) =>
      DeliveryAllowedIff(s, d);
      if ApplySettler(s, i).Ok? {
        PhysicalRedeemEffect(s, d);
        DeliveryMoved(s, ApplySettler(s, i).value, d);
      }
    case EmergencyWithdrawOrder(signer, k, maker, otoken, settlerOtoken, pool, to, credited) =>
      ExitIff(s, signer, k, maker, otoken, settlerOtoken, pool, to, credited);
      if ApplySettler(s, i).Ok? { ExitMoved(s, i); }
  }

  lemma DeliveryAllowedIff(s: System, d: Delivery)
    requires Books(s) && Lawful(s)
    ensures ApplySettler(s, SettlerIx.PhysicalRedeem(d)).Ok? <==> DeliveryAllowed(s, d)
  {
    hide Books, Lawful, Deliverable, Owed, DeliveredBy, Settler.PhysicalRedeem;
    DeliveryIff(s, d);
  }

  // ---------------------------------------------------------------- the settler's counter

  /** The settler's counter in the controller is started once, by its owner. */
  lemma VaultCounterIff(s: System, signer: Key)
    ensures var r := ApplySettler(s, InitVaultCounter(signer));
            && (r.Ok? <==> signer == s.settler.owner && SettlerPda !in s.counters)
            && (r.Ok? ==> r.value == s.(counters := s.counters[SettlerPda := 0]))
  {
    hide Settler.WhitelistMaker, Settler.IncrementNonce, Settler.CancelQuote, Settler.ExecuteOrder, Settler.SettleVault,
         Settler.EmergencyWithdraw, Settler.RedeemForMM, Settler.MMSelfRedeem, Settler.PhysicalRedeem;
  }

  // ---------------------------------------------------------------- runs

  /** No price before its time: in every reachable state each recorded price is
      positive and of an expiry that has come. */
  lemma {:induction false} PricesAlwaysDue(s: System, steps: seq<Instruction>)
    requires Initial(s)
    ensures PricesDue(Run(s, steps))
  {
    hide Initial, Books, Step, OracleAfter, FeedsAfter, Progressed, PricesAfter;
    if steps == [] {
      assert s.prices == map[] by { NoPrices(s); }
    } else {
      var before, i := steps[..|steps| - 1], steps[|steps| - 1];
      PricesAlwaysDue(s, before);
      RunKeeps(s, before);
      Theorems.DeviationAlwaysChecked(s, before);
      OracleFollows(Run(s, before), i);
      NewPriceDue(Run(s, before), i);
      TimeGoesOn(Run(s, before), i);
    }
  }

  lemma NoPrices(s: System)
    requires Initial(s)
    ensures s.prices == map[]
  {
  }

  lemma NewPriceDue(s: System, i: Instruction)
    requires PricesDue(s)
    ensures forall p | p in PricesAfter(s, i) :: PricesAfter(s, i)[p] > 0 && p.expiry <= s.now
  {
    hide Vetted, Oracle.ParsePrice;
  }

  lemma TimeGoesOn(s: System, i: Instruction)
    requires Books(s)
    ensures s.now <= Step(s, i).now
  {
    hide Books, Step, VaultsGrow, ExpiredClosed, QuotesAdvance;
    StepProgress(s, i);
  }

  /** What is executed under a quote that is frozen does not change. */
  lemma FrozenTotals(s: System, late: seq<Instruction>, q: QuoteKey)
    requires Books(s) && Frozen(s, q)
    ensures var t := Run(s, late);
            FillOf(t, q) == FillOf(s, q) && Total(t.log, FilledUnder(q)) == Total(s.log, FilledUnder(q))
  {
    hide Run, Inv, AttributionsOk, DriftOk, Backed, FillsWritten, TermsKept, VaultsGrow, ExpiredClosed, Frozen;
    RunProgress(s, late);
    assert QuoteOk(s, q) && QuoteOk(Run(s, late), q);
  }

  /** A cancellation holds: it marks the maker's quote of that id under its current
      nonce and no other record, and whatever is submitted afterwards, nothing is
      ever executed under that quote again. */
  lemma CancellationHolds(s: System, maker: Key, id: u64, late: seq<Instruction>)
    requires Books(s) && Lawful(s) && maker in s.makers
    ensures var q := QuoteKey(maker, s.makers[maker].nonce, id);
            var c := Step(s, ToSettler(SettlerIx.CancelQuote(maker, id)));
            var t := Run(c, late);
            && q in c.fills && c.fills == s.fills[q := QuoteFill(FilledOf(s, q), true)]
            && FillOf(t, q) == c.fills[q] && Total(t.log, FilledUnder(q)) == Total(s.log, FilledUnder(q))
  {
    hide Books, Lawful, Step, Run;
    var i := ToSettler(SettlerIx.CancelQuote(maker, id));
    var q, c := QuoteKey(maker, s.makers[maker].nonce, id), Step(s, i);
    FillsFollow(s, i);
    StepKeeps(s, i);
    FrozenTotals(c, late, q);
    QuotesAccount(s, q);
    QuotesAccount(c, q);
  }

  lemma QuotesAccount(s: System, q: QuoteKey)
    requires Books(s)
    ensures FillOf(s, q).filled == Total(s.log, FilledUnder(q))
  {
    hide Inv, AttributionsOk, DriftOk, Backed, FillsWritten;
    assert QuoteOk(s, q);
  }

  /** Raising the nonce retires every quote under the old one and earlier. */
  lemma NonceRetires(s: System, maker: Key, late: seq<Instruction>, q: QuoteKey)
    requires Books(s) && maker in s.makers && s.makers[maker].nonce < MAX64
    requires q.maker == maker && q.nonce <= s.makers[maker].nonce
    ensures var c := Step(s, ToSettler(SettlerIx.IncrementMakerNonce(maker)));
            && maker in c.makers && c.makers[maker] == MakerState(s.makers[maker].nonce + 1, s.makers[maker].whitelisted)
            && Total(Run(c, late).log, FilledUnder(q)) == Total(s.log, FilledUnder(q))
  {
    hide Books, Step, Run;
    var i := ToSettler(SettlerIx.IncrementMakerNonce(maker));
    var c := Step(s, i);
    MakersFollow(s, i);
    StepKeeps(s, i);
    StepFrame(s, i);
    FrozenTotals(c, late, q);
    QuotesAccount(s, q);
    QuotesAccount(c, q);
  }

  /** The settler's pause: until the owner lifts it no quote is filled, and a
      maker's custody changes only by its own redemption or by exits of vaults
      attributed to it. */
  lemma {:induction false} SettlerPauseHalts(s: System, steps: seq<Instruction>)
    requires Books(s) && Lawful(s) && s.settler.paused
    requires forall j | 0 <= j < |steps| :: steps[j] != ToSettler(Pause(s.settler.owner, false))
    ensures var t := Run(s, steps);
            && Books(t) && Lawful(t) && t.settler.paused && t.settler.owner == s.settler.owner
            && (forall q :: FilledOf(t, q) == FilledOf(s, q))
            && (forall c | forall j | 0 <= j < |steps| :: !TakesOut(steps[j], c) :: CustodyIn(t, c) == CustodyIn(s, c))
  {
    hide Books, Lawful, Step, TakesOut, FilledOf, CustodyIn;
    if steps != [] {
      var before, i := steps[..|steps| - 1], steps[|steps| - 1];
      SettlerPauseHalts(s, before);
      PausedSettlerStep(Run(s, before), i);
      StepKeeps(Run(s, before), i);
      StepLawful(Run(s, before), i);
      forall c | forall j | 0 <= j < |steps| :: !TakesOut(steps[j], c) ensures CustodyIn(Run(s, steps), c) == CustodyIn(s, c) {
        assert forall j | 0 <= j < |before| :: before[j] == steps[j];
      }
    }
  }

  /** The maker's own redemption, and exits, for one maker and series. */
  predicate TakesOut(i: Instruction, c: CustodyKey) {
    match i
    case ToSettler(MMSelfRedeem(maker, otoken, _, _, _)) => CustodyKey(maker, otoken) == c
    case ToSettler(EmergencyWithdrawOrder(_, _, maker, otoken, _, _, _, _)) => CustodyKey(maker, otoken) == c
    case _ => false
  }

  lemma PausedSettlerStep(s: System, i: Instruction)
    requires Books(s) && Lawful(s) && s.settler.paused && i != ToSettler(Pause(s.settler.owner, false))
    ensures var t := Step(s, i);
            && t.settler.paused && t.settler.owner == s.settler.owner
            && (forall q :: FilledOf(t, q) == FilledOf(s, q))
            && (forall c | !TakesOut(i, c) :: CustodyIn(t, c) == CustodyIn(s, c))
  {
    hide Books, Lawful, Step, Matched, Collateralised, Affordable, Cashable, SelfRedeemAllowed, MayExit, BurnAmount, SignedFor, Owed, DeliveredBy;
    SettingsFollow(s, i);
    FillsFollow(s, i);
    CustodyFollows(s, i);
  }
}
