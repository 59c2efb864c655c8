/** Which instructions let a maker's custody fall behind its vaults. */
module Drift {
  import opened Wrappers
  import opened Ints
  import opened Payoff
  import opened Sums
  import opened Model
  import opened Tokens
  import opened Settler
  import opened SettlerBooks
  import opened OrderSteps
  import opened CustodySteps
  import opened DeliverySteps
  import opened PoolBooks
  import opened SettlerPools
  import opened Machine
  import opened Invariants
  import opened Progress
  import Controller

  /** The two cash routes, for one maker and series. */
  predicate CashesOut(i: Instruction, c: CustodyKey) {
    match i
    case ToSettler(RedeemForMM(_, k, _, _, _)) => k == c
    case ToSettler(MMSelfRedeem(maker, otoken, _, _, _)) => CustodyKey(maker, otoken) == c
    case _ => false
  }

  ghost predicate NothingCashed(s: System, t: System, c: CustodyKey) {
    Total(t.log, RedeemedBy(c)) == Total(s.log, RedeemedBy(c))
  }

  lemma OpenCashes(s: System, owner: Holder, mint: Key, beneficiary: Holder, c: CustodyKey)
    requires Controller.OpenVault(s, owner, mint, beneficiary).Ok?
    ensures NothingCashed(s, Controller.OpenVault(s, owner, mint, beneficiary).value, c)
  {
  }

  lemma DepositCashes(s: System, owner: Holder, id: nat, from: Account, pool: Account, amount: u64, credited: nat, c: CustodyKey)
    requires Controller.Deposit(s, owner, id, from, pool, amount, credited).Ok?
    ensures NothingCashed(s, Controller.Deposit(s, owner, id, from, pool, amount, credited).value, c)
  {
    hide Transfer;
    TransferMoves(s, owner, from, pool, amount, credited);
  }

  lemma MintCashes(s: System, owner: Holder, id: nat, otoken: Key, to: Account, amount: u64, c: CustodyKey)
    requires Controller.Mint(s, owner, id, otoken, to, amount).Ok?
    ensures NothingCashed(s, Controller.Mint(s, owner, id, otoken, to, amount).value, c)
  {
    hide Controller.Mint, GetRequiredCollateral;
    MintMoves(s, owner, id, otoken, to, amount);
  }

  lemma SettleCashes(s: System, signer: Key, k: VaultKey, pool: Account, to: Account, credited: nat, c: CustodyKey)
    requires Controller.Settle(s, signer, k.owner, k.id, pool, to, credited).Ok?
    ensures NothingCashed(s, Controller.Settle(s, signer, k.owner, k.id, pool, to, credited).value, c)
  {
    hide Controller.Settle, GetPayout;
    SettleMoves(s, signer, k.owner, k.id, pool, to, credited);
  }

  lemma HolderCashes(s: System, redeemer: Holder, otoken: Key, from: Account, to: Account, pool: Account, amount: u64, credited: nat,
                     c: CustodyKey)
    requires Controller.Redeem(s, redeemer, otoken, from, to, pool, amount, credited).Ok?
    ensures NothingCashed(s, Controller.Redeem(s, redeemer, otoken, from, to, pool, amount, credited).value, c)
  {
    hide Controller.Redeem, GetPayout;
    RedeemMoves(s, redeemer, otoken, from, to, pool, amount, credited);
  }

  lemma WithdrawCashes(s: System, owner: Holder, id: nat, pool: Account, to: Account, credited: nat, c: CustodyKey)
    requires Controller.EmergencyWithdrawVault(s, owner, id, pool, to, credited).Ok?
    ensures NothingCashed(s, Controller.EmergencyWithdrawVault(s, owner, id, pool, to, credited).value, c)
  {
    hide Controller.EmergencyWithdrawVault;
    EmergencyMoves(s, owner, id, pool, to, credited);
  }

  /** Registrations, prices, counters and pauses log nothing. */
  lemma PaperCashes(s: System, i: ControllerIx, c: CustodyKey)
    requires ApplyController(s, i).Ok? && (ControllerPaperwork(i) || i.CreateOTokenInfo? || i.SetSeriesPrice?)
    ensures NothingCashed(s, ApplyController(s, i).value, c)
  {
    hide Controller.OpenVault, Controller.Deposit, Controller.Mint, Controller.Settle, Controller.Redeem,
         Controller.EmergencyWithdrawVault;
  }

  lemma ControllerCashes(s: System, i: ControllerIx, c: CustodyKey)
    requires ApplyController(s, i).Ok?
    ensures NothingCashed(s, ApplyController(s, i).value, c)
  {
    hide Controller.OpenVault, Controller.Deposit, Controller.Mint, Controller.Settle, Controller.Redeem,
         Controller.EmergencyWithdrawVault, Controller.CreateSeries, Controller.SetExpiryPrice, NothingCashed;
    match i
    case OpenVault(owner, mint, beneficiary) => OpenCashes(s, Wallet(owner), mint, beneficiary, c);
    case DepositCollateral(owner, id, from, pool, amount, credited) => DepositCashes(s, Wallet(owner), id, from, pool, amount, credited, c);
    case MintOtoken(owner, id, otoken, to, amount) => MintCashes(s, Wallet(owner), id, otoken, to, amount, c);
    case SettleVault(signer, k, pool, to, credited) => SettleCashes(s, signer, k, pool, to, credited, c);
    case Redeem(redeemer, otoken, from, to, pool, amount, credited) =>
      HolderCashes(s, Wallet(redeemer), otoken, from, to, pool, amount, credited, c);
    case EmergencyWithdrawVault(owner, id, pool, to, credited) => WithdrawCashes(s, Wallet(owner), id, pool, to, credited, c);
    case _ => PaperCashes(s, i, c);
  }

  lemma OrderCashes(s: System, a: Order, c: CustodyKey)
    requires Settler.ExecuteOrder(s, a).Ok?
    ensures NothingCashed(s, Settler.ExecuteOrder(s, a).value, c)
  {
    hide Settler.ExecuteOrder, ComputePremiumSplit, OrderLog, Total, Paid;
    ExecuteOrderEffect(s, a);
    OrderTotal(s.log, OrderVault(s), a, ComputePremiumSplit(a.amount, a.bidPrice, s.settler.feeBps).value.fee, RedeemedBy(c));
  }

  lemma CashRouteCashes(s: System, t: System, k: CustodyKey, amount: u64, credited: nat, c: CustodyKey)
    requires CashedOut(s, t, k, amount, credited) && k != c
    ensures NothingCashed(s, t, c)
  {
    hide GetPayout;
    assert Total(t.log.before, RedeemedBy(c)) == Total(s.log, RedeemedBy(c));
  }

  lemma DeliveryCashes(s: System, t: System, d: Delivery, c: CustodyKey)
    requires Delivered(s, t, d)
    ensures NothingCashed(s, t, c)
  {
    hide GetPayout;
    assert Total(t.log.before, RedeemedBy(c)) == Total(s.log, RedeemedBy(c));
  }

  lemma ExitCashes(s: System, t: System, k: VaultKey, c: CustodyKey)
    requires Exited(s, t, k)
    ensures NothingCashed(s, t, c)
  {
    hide BurnAmount;
  }

  lemma QuoteCashes(s: System, i: SettlerIx, c: CustodyKey)
    requires ApplySettler(s, i).Ok? && (i.WhitelistMaker? || i.IncrementMakerNonce? || i.CancelQuote?)
    ensures NothingCashed(s, ApplySettler(s, i).value, c)
  {
    hide Settler.ExecuteOrder, Settler.SettleVault, Settler.EmergencyWithdraw, Settler.RedeemForMM, Settler.MMSelfRedeem,
         Settler.PhysicalRedeem;
  }

  lemma SettlerCashes(s: System, i: SettlerIx, c: CustodyKey)
    requires Books(s) && ApplySettler(s, i).Ok? && !CashesOut(ToSettler(i), c)
    ensures NothingCashed(s, ApplySettler(s, i).value, c)
  {
    hide Books, Settler.ExecuteOrder, Controller.Settle, EmergencyWithdraw, RedeemAndForward, CheckRedeemAccounts,
         Settler.PhysicalRedeem, CashedOut, Delivered, Exited, GetPayout, Settler.WhitelistMaker, Settler.IncrementNonce,
         Settler.CancelQuote, Settler.SetProtocolFee, Settler.SetEscapeDelay, Settler.SetTreasury, Settler.SetPaused, Settler.SetOperator,
         Settler.SetJupiterProgram,
         Controller.InitializeCounter, NothingCashed;
    BooksBasics(s);
    match i
    case ExecuteOrder(a) => OrderCashes(s, a, c);
    case SettleVaultForMaker(operator, signer, k, pool, to, credited) => SettleCashes(s, signer, k, pool, to, credited, c);
    case EmergencyWithdrawOrder(signer, k, maker, otoken, settlerOtoken, pool, to, credited) =>
      ExitEffect(s, signer, k, maker, otoken, settlerOtoken, pool, to, credited);
      ExitCashes(s, ApplySettler(s, i).value, k, c);
    case RedeemForMM(operator, k, accounts, amount, credited) =>
      CashRoutesPayExactly(s, operator, k, accounts, amount, credited);
      CashRouteCashes(s, ApplySettler(s, i).value, k, amount, credited, c);
    case MMSelfRedeem(maker, otoken, accounts, amount, credited) =>
      CashRoutesPayExactly(s, 0, CustodyKey(maker, otoken), accounts, amount, credited);
      CashRouteCashes(s, ApplySettler(s, i).value, CustodyKey(maker, otoken), amount, credited, c);
    case PhysicalRedeem(d) =>
      PhysicalRedeemEffect(s, d);
      DeliveryCashes(s, ApplySettler(s, i).value, d, c);
    case WhitelistMaker(_, _, _) => QuoteCashes(s, i, c);
    case IncrementMakerNonce(_) => QuoteCashes(s, i, c);
    case CancelQuote(_, _) => QuoteCashes(s, i, c);
    case _ => SettlerPaperCashes(s, i, c);
  }

  lemma SettlerPaperCashes(s: System, i: SettlerIx, c: CustodyKey)
    requires ConfigOk(s.settler) && SettlerPaperwork(i) && ApplySettler(s, i).Ok?
    ensures NothingCashed(s, ApplySettler(s, i).value, c)
  {
    hide ApplySettler;
    SettlerPaperTrail(s, i);
  }

  lemma StepCashes(s: System, i: Instruction, c: CustodyKey)
    requires Books(s) && !CashesOut(i, c)
    ensures NothingCashed(s, Step(s, i), c)
  {
    hide Books, ApplyController, ApplyOracle, ApplySettler, ApplyWorld;
    if Apply(s, i).Ok? {
      BooksBasics(s);
      match i
      case ToController(x) => ControllerCashes(s, x, c);
      case ToOracle(o) => OracleTrail(s, o);
      case ToSettler(b) => SettlerCashes(s, b, c);
      case Outside(w) => WorldShape(s, w);
    }
  }

  /** Custody keeps up with the vaults exactly: over every run in which neither
      cash route is used for a maker and a series, its custody entry equals its
      undelivered oTokens. */
  lemma {:induction false} NoCashNoDrift(s: System, steps: seq<Instruction>, c: CustodyKey)
    requires Initial(s) && forall j | 0 <= j < |steps| :: !CashesOut(steps[j], c)
    ensures Total(Run(s, steps).log, RedeemedBy(c)) == 0
    ensures CustodyOf(Run(s, steps), c) == MapSum(RemainingMap(Run(s, steps), c))
  {
    hide Inv, AttributionsOk, Backed, QuoteOk, FillsWritten, Step, CashesOut;
    RunKeeps(s, steps);
    if steps != [] {
      var before := steps[..|steps| - 1];
      NoCashNoDrift(s, before, c);
      RunKeeps(s, before);
      StepCashes(Run(s, before), steps[|steps| - 1], c);
    }
    assert DriftOk(Run(s, steps), c);
  }
}
