/** Which accounts an instruction may touch at all, for every instruction of every
    program and the world outside. */
module Frames {
  import opened Wrappers
  import opened Ints
  import opened Payoff
  import opened Model
  import opened Tokens
  import opened Settler
  import opened SettlerBooks
  import opened OrderSteps
  import opened CustodySteps
  import opened DeliverySteps
  import opened PoolBooks
  import opened Machine
  import opened Invariants
  import opened Progress
  import Controller
  import Oracle

  predicate Pauses(i: Instruction) {
    i.ToController? && (i.controller.SetPartialPauser? || i.controller.SetPartiallyPaused? || i.controller.SetFullyPaused?)
  }

  predicate Counts(i: Instruction) {
    || (i.ToController? && (i.controller.InitializeCounter? || i.controller.OpenVault?))
    || (i.ToSettler? && (i.settler.InitVaultCounter? || i.settler.ExecuteOrder?))
  }

  predicate Lists(i: Instruction) {
    i.ToController? && (i.controller.CreateOTokenInfo? || i.controller.SetSeriesPrice?)
  }

  predicate MovesVaults(i: Instruction) {
    || (i.ToController?
        && (i.controller.OpenVault? || i.controller.DepositCollateral? || i.controller.MintOtoken? || i.controller.SettleVault?
            || i.controller.EmergencyWithdrawVault?))
    || (i.ToSettler? && (i.settler.ExecuteOrder? || i.settler.SettleVaultForMaker? || i.settler.EmergencyWithdrawOrder?))
  }

  predicate Sets(i: Instruction) {
    i.ToSettler?
    && (i.settler.SetProtocolFee? || i.settler.SetEscapeDelay? || i.settler.SetOperator? || i.settler.SetJupiterProgram?
        || i.settler.SetTreasury? || i.settler.Pause?)
  }

  predicate MovesMakers(i: Instruction) {
    i.ToSettler? && (i.settler.WhitelistMaker? || i.settler.IncrementMakerNonce?)
  }

  predicate MovesQuotes(i: Instruction) {
    i.ToSettler? && (i.settler.CancelQuote? || i.settler.ExecuteOrder?)
  }

  predicate MovesCustody(i: Instruction) {
    i.ToSettler?
    && (i.settler.ExecuteOrder? || i.settler.EmergencyWithdrawOrder? || i.settler.RedeemForMM? || i.settler.MMSelfRedeem?
        || i.settler.PhysicalRedeem?)
  }

  /** What an instruction is not about stays as it was. */
  ghost predicate Framed(s: System, t: System, i: Instruction) {
    && (!(i.Outside? && i.world.Tick?) ==> t.now == s.now)
    && (!Pauses(i) ==> t.config == s.config)
    && (!Counts(i) ==> t.counters == s.counters)
    && (!Lists(i) ==> t.series == s.series)
    && (!MovesVaults(i) ==> t.vaults == s.vaults)
    && (!i.ToOracle? ==> t.oracle == s.oracle && t.feeds == s.feeds && t.prices == s.prices)
    && (!Sets(i) ==> t.settler == s.settler)
    && (!MovesMakers(i) ==> t.makers == s.makers)
    && (!MovesQuotes(i) ==> t.fills == s.fills)
    && (!MovesCustody(i) ==> t.custody == s.custody && t.attributions == s.attributions)
  }

  // ---------------------------------------------------------------- controller

  /** What a vault instruction of the controller may touch. */
  ghost predicate OnVaults(s: System, t: System) {
    t == s.(vaults := t.vaults, counters := t.counters, balances := t.balances, supply := t.supply, log := t.log)
  }

  lemma DepositShape(s: System, owner: Holder, id: nat, from: Account, pool: Account, amount: u64, credited: nat)
    requires Controller.Deposit(s, owner, id, from, pool, amount, credited).Ok?
    ensures var t := Controller.Deposit(s, owner, id, from, pool, amount, credited).value;
            OnVaults(s, t) && t.counters == s.counters
  {
    hide Controller.Deposit;
    DepositMoves(s, owner, id, from, pool, amount, credited);
  }

  lemma MintShape(s: System, owner: Holder, id: nat, otoken: Key, to: Account, amount: u64)
    requires Controller.Mint(s, owner, id, otoken, to, amount).Ok?
    ensures var t := Controller.Mint(s, owner, id, otoken, to, amount).value;
            OnVaults(s, t) && t.counters == s.counters
  {
    hide Controller.Mint, GetRequiredCollateral;
    MintMoves(s, owner, id, otoken, to, amount);
  }

  lemma SettleShape(s: System, signer: Key, k: VaultKey, pool: Account, to: Account, credited: nat)
    requires Controller.Settle(s, signer, k.owner, k.id, pool, to, credited).Ok?
    ensures var t := Controller.Settle(s, signer, k.owner, k.id, pool, to, credited).value;
            OnVaults(s, t) && t.counters == s.counters
  {
    hide Controller.Settle, GetPayout;
    SettleMoves(s, signer, k.owner, k.id, pool, to, credited);
  }

  lemma RedeemShape(s: System, redeemer: Holder, otoken: Key, from: Account, to: Account, pool: Account, amount: u64, credited: nat)
    requires Controller.Redeem(s, redeemer, otoken, from, to, pool, amount, credited).Ok?
    ensures var t := Controller.Redeem(s, redeemer, otoken, from, to, pool, amount, credited).value;
            OnVaults(s, t) && t.counters == s.counters && t.vaults == s.vaults
  {
    hide Controller.Redeem, GetPayout;
    RedeemMoves(s, redeemer, otoken, from, to, pool, amount, credited);
  }

  lemma WithdrawShape(s: System, owner: Holder, id: nat, pool: Account, to: Account, credited: nat)
    requires Controller.EmergencyWithdrawVault(s, owner, id, pool, to, credited).Ok?
    ensures var t := Controller.EmergencyWithdrawVault(s, owner, id, pool, to, credited).value;
            OnVaults(s, t) && t.counters == s.counters
  {
    hide Controller.EmergencyWithdrawVault;
    EmergencyMoves(s, owner, id, pool, to, credited);
  }

  lemma VaultFrame(s: System, t: System, i: ControllerIx)
    requires OnVaults(s, t) && t.counters == s.counters
    requires i.DepositCollateral? || i.MintOtoken? || i.SettleVault? || i.Redeem? || i.EmergencyWithdrawVault?
    requires i.Redeem? ==> t.vaults == s.vaults
    ensures Framed(s, t, ToController(i))
  {
  }

  lemma EntryFrame(s: System, i: ControllerIx)
    requires ApplyController(s, i).Ok?
    requires !i.DepositCollateral? && !i.MintOtoken? && !i.SettleVault? && !i.Redeem? && !i.EmergencyWithdrawVault?
    ensures Framed(s, ApplyController(s, i).value, ToController(i))
  {
    hide Controller.Deposit, Controller.Mint, Controller.Settle, Controller.Redeem, Controller.EmergencyWithdrawVault;
  }

  lemma ControllerFrame(s: System, i: ControllerIx)
    requires ApplyController(s, i).Ok?
    ensures Framed(s, ApplyController(s, i).value, ToController(i))
  {
    hide Controller.InitializeCounter, Controller.OpenVault, Controller.Deposit, Controller.Mint, Controller.Settle,
         Controller.Redeem, Controller.EmergencyWithdrawVault, Controller.CreateSeries, Controller.SetExpiryPrice,
         Controller.SetPartialPauser, Controller.SetPartiallyPaused, Controller.SetFullyPaused, Framed, OnVaults;
    match i
    case DepositCollateral(owner, id, from, pool, amount, credited) =>
      DepositShape(s, Wallet(owner), id, from, pool, amount, credited);
      VaultFrame(s, ApplyController(s, i).value, i);
    case MintOtoken(owner, id, otoken, to, amount) =>
      MintShape(s, Wallet(owner), id, otoken, to, amount);
      VaultFrame(s, ApplyController(s, i).value, i);
    case SettleVault(signer, k, pool, to, credited) =>
      SettleShape(s, signer, k, pool, to, credited);
      VaultFrame(s, ApplyController(s, i).value, i);
    case Redeem(redeemer, otoken, from, to, pool, amount, credited) =>
      RedeemShape(s, Wallet(redeemer), otoken, from, to, pool, amount, credited);
      VaultFrame(s, ApplyController(s, i).value, i);
    case EmergencyWithdrawVault(owner, id, pool, to, credited) =>
      WithdrawShape(s, Wallet(owner), id, pool, to, credited);
      VaultFrame(s, ApplyController(s, i).value, i);
    case _ => EntryFrame(s, i);
  }

  // ---------------------------------------------------------------- the others

  lemma OracleFrame(s: System, i: OracleIx)
    requires ApplyOracle(s, i).Ok?
    ensures Framed(s, ApplyOracle(s, i).value, ToOracle(i))
  {
    hide Oracle.ParsePrice, Oracle.Normalize, Oracle.ValidatePriceDeviation, Oracle.ValidateConfidence, Oracle.ValidateStaleness;
  }

  lemma OrderShape(s: System, a: Order)
    requires Settler.ExecuteOrder(s, a).Ok?
    ensures var t := Settler.ExecuteOrder(s, a).value;
            t == s.(fills := t.fills, vaults := t.vaults, counters := t.counters, balances := t.balances, supply := t.supply,
                    custody := t.custody, attributions := t.attributions, log := t.log)
  {
    hide Settler.ExecuteOrder, ComputePremiumSplit, OrderLog, Paid, Charged;
    ExecuteOrderEffect(s, a);
  }

  lemma ExitShape(s: System, signer: Key, k: VaultKey, maker: Key, otoken: Key, settlerOtoken: Account,
                  pool: Account, to: Account, credited: nat)
    requires EmergencyWithdraw(s, signer, k, maker, otoken, settlerOtoken, pool, to, credited).Ok?
    ensures var t := EmergencyWithdraw(s, signer, k, maker, otoken, settlerOtoken, pool, to, credited).value;
            t == s.(vaults := t.vaults, balances := t.balances, supply := t.supply, custody := t.custody,
                    attributions := t.attributions, log := t.log)
  {
    hide EmergencyWithdraw, BurnLeg, BurnAmount, Burn, Controller.EmergencyWithdrawVault;
    EmergencyWithdrawEffect(s, signer, k, maker, otoken, settlerOtoken, pool, to, credited);
    EmergencyMoves(BurnLeg(s, k, settlerOtoken), SettlerPda, k.id, pool, to, credited);
  }

  lemma CashShape(s: System, t: System, c: CustodyKey, amount: u64, credited: nat)
    requires CashedOut(s, t, c, amount, credited)
    ensures t == s.(custody := t.custody, balances := t.balances, supply := t.supply, log := t.log)
  {
    hide GetPayout;
  }

  lemma DeliveryShape(s: System, t: System, d: Delivery)
    requires Delivered(s, t, d)
    ensures t == s.(custody := t.custody, attributions := t.attributions, balances := t.balances, supply := t.supply, log := t.log)
  {
    hide GetPayout;
  }

  lemma SettlerFrame(s: System, i: SettlerIx)
    requires Books(s) && ApplySettler(s, i).Ok?
    ensures Framed(s, ApplySettler(s, i).value, ToSettler(i))
  {
    hide Books, Settler.ExecuteOrder, Controller.Settle, EmergencyWithdraw, RedeemAndForward, CheckRedeemAccounts,
         Settler.PhysicalRedeem, CashedOut, Delivered, GetPayout, Settler.WhitelistMaker, Settler.IncrementNonce, Settler.CancelQuote,
         Settler.SetProtocolFee, Settler.SetEscapeDelay, Settler.SetTreasury, Settler.SetPaused, Settler.SetOperator,
         Settler.SetJupiterProgram, Controller.InitializeCounter, Framed;
    BooksBasics(s);
    match i
    case ExecuteOrder(a) => OrderFrame(s, a);
    case SettleVaultForMaker(operator, signer, k, pool, to, credited) => SettleForFrame(s, i);
    case EmergencyWithdrawOrder(signer, k, maker, otoken, settlerOtoken, pool, to, credited) => ExitFrame(s, i);
    case RedeemForMM(operator, c, accounts, amount, credited) =>
      CashRoutesPayExactly(s, operator, c, accounts, amount, credited);
      CashShape(s, ApplySettler(s, i).value, c, amount, credited);
      SpentFrame(s, ApplySettler(s, i).value, i);
    case MMSelfRedeem(maker, otoken, accounts, amount, credited) =>
      CashRoutesPayExactly(s, 0, CustodyKey(maker, otoken), accounts, amount, credited);
      CashShape(s, ApplySettler(s, i).value, CustodyKey(maker, otoken), amount, credited);
      SpentFrame(s, ApplySettler(s, i).value, i);
    case PhysicalRedeem(d) =>
      PhysicalRedeemEffect(s, d);
      DeliveryShape(s, ApplySettler(s, i).value, d);
      SpentFrame(s, ApplySettler(s, i).value, i);
    case _ => RecordFrame(s, i);
  }

  lemma OrderFrame(s: System, a: Order)
    requires Settler.ExecuteOrder(s, a).Ok?
    ensures Framed(s, Settler.ExecuteOrder(s, a).value, ToSettler(SettlerIx.ExecuteOrder(a)))
  {
    hide Settler.ExecuteOrder;
    OrderShape(s, a);
  }

  lemma SettleForFrame(s: System, i: SettlerIx)
    requires i.SettleVaultForMaker? && ApplySettler(s, i).Ok?
    ensures Framed(s, ApplySettler(s, i).value, ToSettler(i))
  {
    hide Controller.Settle;
    SettleShape(s, i.signer, i.vault, i.pool, i.to, i.credited);
  }

  lemma ExitFrame(s: System, i: SettlerIx)
    requires i.EmergencyWithdrawOrder? && ApplySettler(s, i).Ok?
    ensures Framed(s, ApplySettler(s, i).value, ToSettler(i))
  {
    hide EmergencyWithdraw;
    ExitShape(s, i.signer, i.vault, i.maker, i.otoken, i.settlerOtoken, i.pool, i.to, i.credited);
  }

  lemma SpentFrame(s: System, t: System, i: SettlerIx)
    requires i.RedeemForMM? || i.MMSelfRedeem? || i.PhysicalRedeem?
    requires t == s.(custody := t.custody, attributions := t.attributions, balances := t.balances, supply := t.supply, log := t.log)
    ensures Framed(s, t, ToSettler(i))
  {
  }

  lemma RecordFrame(s: System, i: SettlerIx)
    requires ApplySettler(s, i).Ok?
    requires SettlerPaperwork(i) || i.WhitelistMaker? || i.IncrementMakerNonce? || i.CancelQuote?
    ensures Framed(s, ApplySettler(s, i).value, ToSettler(i))
  {
    hide Settler.ExecuteOrder, Settler.SettleVault, Settler.EmergencyWithdraw, Settler.RedeemForMM, Settler.MMSelfRedeem,
         Settler.PhysicalRedeem;
  }

  lemma WorldFrame(s: System, i: WorldIx)
    requires ApplyWorld(s, i).Ok?
    ensures Framed(s, ApplyWorld(s, i).value, Outside(i))
  {
    hide Transfer, MintTo, Burn;
    match i
    case Tick(_) =>
    case Send(owner, from, to, units, credited) => TransferMoves(s, Wallet(owner), from, to, units, credited);
    case Issue(to, units) => MintToMoves(s, to.mint, to, units);
    case Spend(owner, from, units) => BurnMoves(s, Wallet(owner), from, units);
  }

  lemma NoFrame(s: System, i: Instruction)
    ensures Framed(s, s, i)
  {
  }

  /** No instruction touches what it is not about. */
  lemma StepFrame(s: System, i: Instruction)
    requires Books(s)
    ensures Framed(s, Step(s, i), i)
  {
    hide Books, ApplyController, ApplyOracle, ApplySettler, ApplyWorld, Framed;
    NoFrame(s, i);
    if Apply(s, i).Ok? {
      match i
      case ToController(c) => ControllerFrame(s, c);
      case ToOracle(o) => OracleFrame(s, o);
      case ToSettler(b) => SettlerFrame(s, b);
      case Outside(w) => WorldFrame(s, w);
    }
  }
}
