/** What the controller's two pauses mean for every instruction of every
    program, and over runs. */
module Pauses {
  import opened Wrappers
  import opened Ints
  import opened Payoff
  import opened Model
  import opened Tokens
  import opened Settler
  import opened SettlerBooks
  import opened OrderSteps
  import opened CustodySteps
  import opened DeliverySteps
  import opened PoolBooks
  import opened SettlerPools
  import opened Machine
  import opened Invariants
  import opened Progress
  import Controller

  /** Instructions that put a vault, collateral or a short on the books. */
  predicate Writes(i: Instruction) {
    match i
    case ToController(c) => c.OpenVault? || c.DepositCollateral? || c.MintOtoken?
    case ToSettler(b) => b.ExecuteOrder?
    case _ => false
  }

  /** Instructions that pay at the expiry price. */
  predicate Pays(i: Instruction) {
    match i
    case ToController(c) => c.SettleVault? || c.Redeem?
    case ToSettler(b) => b.SettleVaultForMaker? || b.RedeemForMM? || b.MMSelfRedeem? || b.PhysicalRedeem?
    case _ => false
  }

  // ---------------------------------------------------------------- refusals

  lemma OrderNeedsVault(s: System, a: Order)
    requires Settler.ExecuteOrder(s, a).Ok?
    ensures !s.config.fullyPaused && !s.config.partiallyPaused
  {
    hide CheckOrder, ComputePremiumSplit, Attribute, PayPremium, Controller.Deposit, Controller.Mint;
  }

  lemma CashNeedsRedeem(s: System, c: CustodyKey, a: RedeemAccounts, amount: u64, credited: nat)
    requires RedeemAndForward(s, c, a, amount, credited).Ok?
    ensures !s.config.fullyPaused
  {
    hide Transfer, GetPayout, Burn;
  }

  lemma DeliveryNeedsRedeem(s: System, d: Delivery)
    requires Settler.PhysicalRedeem(s, d).Ok?
    ensures !s.config.fullyPaused
  {
    hide Transfer, GetPayout, Burn, DeliveryTerms, InvokeSwap, Deliver;
  }

  /** A full pause refuses whatever writes or pays. */
  lemma FullPauseRefuses(s: System, i: Instruction)
    requires s.config.fullyPaused && (Writes(i) || Pays(i))
    ensures Apply(s, i).Err?
  {
    hide Settler.ExecuteOrder, RedeemAndForward, Settler.PhysicalRedeem, Transfer, GetPayout, Burn;
    if Apply(s, i).Ok? {
      match i
      case ToSettler(ExecuteOrder(a)) => OrderNeedsVault(s, a);
      case ToSettler(RedeemForMM(_, c, accounts, amount, credited)) => CashNeedsRedeem(s, c, accounts, amount, credited);
      case ToSettler(MMSelfRedeem(maker, otoken, accounts, amount, credited)) =>
        CashNeedsRedeem(s, CustodyKey(maker, otoken), accounts, amount, credited);
      case ToSettler(PhysicalRedeem(d)) => DeliveryNeedsRedeem(s, d);
      case _ =>
    }
  }

  lemma PartialPauseRefuses(s: System, i: Instruction)
    requires s.config.partiallyPaused && Writes(i)
    ensures Apply(s, i).Err?
  {
    hide Settler.ExecuteOrder;
    if Apply(s, i).Ok? {
      match i
      case ToSettler(ExecuteOrder(a)) => OrderNeedsVault(s, a);
      case _ =>
    }
  }

  // ---------------------------------------------------------------- what the others do

  /** No vault is opened, none gains collateral or a short, no oToken is minted
      and no quote is filled. */
  ghost predicate WritesNothing(s: System, t: System) {
    && t.vaults.Keys == s.vaults.Keys
    && (forall k | k in s.vaults :: t.vaults[k] == s.vaults[k].(settled := t.vaults[k].settled))
    && (forall q :: FillOf(t, q).filled == FillOf(s, q).filled)
    && (forall o :: Total(t.log, MintedOf(o)) == Total(s.log, MintedOf(o)))
  }

  /** No oToken is redeemed, and collateral leaves pools by emergency exits only. */
  ghost predicate PaysNothing(s: System, t: System) {
    && (forall o :: PaymentsOf(t.log, o) == PaymentsOf(s.log, o))
    && (forall k :: Total(t.log, ReleasesOf(k)) - Total(t.log, RescuesOf(k)) == Total(s.log, ReleasesOf(k)) - Total(s.log, RescuesOf(k)))
  }

  ghost predicate Quiet(s: System, t: System, pays: bool) {
    t.config == s.config && WritesNothing(s, t) && (!pays ==> PaysNothing(s, t))
  }

  /** Vaults and quotes as they were, and one event at most. */
  lemma RecordsQuiet(s: System, t: System)
    requires t.vaults == s.vaults && (forall q :: FillOf(t, q).filled == FillOf(s, q).filled)
    requires t.log == s.log || (t.log.Then? && t.log.before == s.log && (t.log.event.OutsideCredit? || t.log.event.OutsideBurn?))
    ensures WritesNothing(s, t) && PaysNothing(s, t)
  {
  }

  lemma SettleQuiet(s: System, signer: Key, k: VaultKey, pool: Account, to: Account, credited: nat)
    requires Controller.Settle(s, signer, k.owner, k.id, pool, to, credited).Ok?
    ensures Quiet(s, Controller.Settle(s, signer, k.owner, k.id, pool, to, credited).value, true)
  {
    hide Controller.Settle, GetPayout;
    SettleMoves(s, signer, k.owner, k.id, pool, to, credited);
  }

  lemma RedeemQuiet(s: System, redeemer: Holder, otoken: Key, from: Account, to: Account, pool: Account, amount: u64, credited: nat)
    requires Controller.Redeem(s, redeemer, otoken, from, to, pool, amount, credited).Ok?
    ensures Quiet(s, Controller.Redeem(s, redeemer, otoken, from, to, pool, amount, credited).value, true)
  {
    hide Controller.Redeem, GetPayout;
    RedeemMoves(s, redeemer, otoken, from, to, pool, amount, credited);
  }

  lemma WithdrawQuiet(s: System, owner: Holder, id: nat, pool: Account, to: Account, credited: nat)
    requires Controller.EmergencyWithdrawVault(s, owner, id, pool, to, credited).Ok?
    ensures Quiet(s, Controller.EmergencyWithdrawVault(s, owner, id, pool, to, credited).value, false)
  {
    hide Controller.EmergencyWithdrawVault;
    EmergencyMoves(s, owner, id, pool, to, credited);
  }

  lemma ExitQuiet(s: System, signer: Key, k: VaultKey, maker: Key, otoken: Key, settlerOtoken: Account,
                  pool: Account, to: Account, credited: nat)
    requires EmergencyWithdraw(s, signer, k, maker, otoken, settlerOtoken, pool, to, credited).Ok?
    ensures Quiet(s, EmergencyWithdraw(s, signer, k, maker, otoken, settlerOtoken, pool, to, credited).value, false)
  {
    hide EmergencyWithdraw, BurnLeg, BurnAmount, Burn, Controller.EmergencyWithdrawVault, Quiet;
    EmergencyWithdrawEffect(s, signer, k, maker, otoken, settlerOtoken, pool, to, credited);
    WithdrawQuiet(BurnLeg(s, k, settlerOtoken), SettlerPda, k.id, pool, to, credited);
    QuietFrom(s, BurnLeg(s, k, settlerOtoken), EmergencyWithdraw(s, signer, k, maker, otoken, settlerOtoken, pool, to, credited).value);
  }

  lemma QuietFrom(s: System, b: System, t: System)
    requires b.vaults == s.vaults && b.fills == s.fills && b.config == s.config && b.log == s.log && Quiet(b, t, false)
    ensures Quiet(s, t, false)
  {
  }

  lemma CashQuiet(s: System, t: System, c: CustodyKey, amount: u64, credited: nat)
    requires CashedOut(s, t, c, amount, credited)
    ensures Quiet(s, t, true)
  {
    hide GetPayout;
    TwoQuietEvents(s, t);
  }

  lemma DeliveryQuiet(s: System, t: System, d: Delivery)
    requires Delivered(s, t, d)
    ensures Quiet(s, t, true)
  {
    hide GetPayout;
    TwoQuietEvents(s, t);
  }

  predicate LiftsFull(i: Instruction) {
    match i
    case ToController(SetFullyPaused(_, flag)) => !flag
    case _ => false
  }

  predicate LiftsPartial(i: Instruction) {
    match i
    case ToController(SetPartiallyPaused(_, flag)) => !flag
    case _ => false
  }

  ghost predicate SetsPause(i: Instruction) {
    i.ToController? && (i.controller.SetPartialPauser? || i.controller.SetPartiallyPaused? || i.controller.SetFullyPaused?)
  }

  lemma ControllerQuiet(s: System, i: ControllerIx)
    requires ApplyController(s, i).Ok? && !Writes(ToController(i)) && !SetsPause(ToController(i))
    ensures Quiet(s, ApplyController(s, i).value, Pays(ToController(i)))
  {
    hide Controller.Settle, Controller.Redeem, Controller.EmergencyWithdrawVault, Quiet;
    match i
    case SettleVault(signer, k, pool, to, credited) => SettleQuiet(s, signer, k, pool, to, credited);
    case Redeem(redeemer, otoken, from, to, pool, amount, credited) =>
      RedeemQuiet(s, Wallet(redeemer), otoken, from, to, pool, amount, credited);
    case EmergencyWithdrawVault(owner, id, pool, to, credited) => WithdrawQuiet(s, Wallet(owner), id, pool, to, credited);
    case _ => PaperQuiet(s, i);
  }

  lemma PaperQuiet(s: System, i: ControllerIx)
    requires ApplyController(s, i).Ok? && (i.InitializeCounter? || i.CreateOTokenInfo? || i.SetSeriesPrice?)
    ensures Quiet(s, ApplyController(s, i).value, false)
  {
    hide Controller.OpenVault, Controller.Deposit, Controller.Mint, Controller.Settle, Controller.Redeem,
         Controller.EmergencyWithdrawVault;
    RecordsQuiet(s, ApplyController(s, i).value);
  }

  lemma OracleQuiet(s: System, i: OracleIx)
    requires ApplyOracle(s, i).Ok?
    ensures Quiet(s, ApplyOracle(s, i).value, false)
  {
    RecordsQuiet(s, ApplyOracle(s, i).value);
  }

  lemma QuoteQuiet(s: System, i: SettlerIx)
    requires ApplySettler(s, i).Ok? && (SettlerPaperwork(i) || i.WhitelistMaker? || i.IncrementMakerNonce? || i.CancelQuote?)
    ensures Quiet(s, ApplySettler(s, i).value, false)
  {
    hide Settler.ExecuteOrder, Settler.SettleVault, Settler.EmergencyWithdraw, Settler.RedeemForMM, Settler.MMSelfRedeem,
         Settler.PhysicalRedeem;
    RecordsQuiet(s, ApplySettler(s, i).value);
  }

  lemma SettlerQuiet(s: System, i: SettlerIx)
    requires Books(s) && ApplySettler(s, i).Ok? && !Writes(ToSettler(i))
    ensures Quiet(s, ApplySettler(s, i).value, Pays(ToSettler(i)))
  {
    hide Books, Quiet, Controller.Settle, EmergencyWithdraw, RedeemAndForward, CheckRedeemAccounts, Settler.PhysicalRedeem,
         CashedOut, Delivered, Settler.WhitelistMaker, Settler.IncrementNonce, Settler.CancelQuote, Settler.SetProtocolFee,
         Settler.SetEscapeDelay, Settler.SetTreasury, Settler.SetPaused, Settler.SetOperator, Settler.SetJupiterProgram,
         Controller.InitializeCounter;
    BooksBasics(s);
    match i
    case SettleVaultForMaker(operator, signer, k, pool, to, credited) => SettleQuiet(s, signer, k, pool, to, credited);
    case EmergencyWithdrawOrder(signer, k, maker, otoken, settlerOtoken, pool, to, credited) =>
      ExitQuiet(s, signer, k, maker, otoken, settlerOtoken, pool, to, credited);
    case RedeemForMM(operator, c, accounts, amount, credited) =>
      CashRoutesPayExactly(s, operator, c, accounts, amount, credited);
      CashQuiet(s, ApplySettler(s, i).value, c, amount, credited);
    case MMSelfRedeem(maker, otoken, accounts, amount, credited) =>
      CashRoutesPayExactly(s, 0, CustodyKey(maker, otoken), accounts, amount, credited);
      CashQuiet(s, ApplySettler(s, i).value, CustodyKey(maker, otoken), amount, credited);
    case PhysicalRedeem(d) =>
      PhysicalRedeemEffect(s, d);
      DeliveryQuiet(s, ApplySettler(s, i).value, d);
    case _ => QuoteQuiet(s, i);
  }

  lemma WorldQuiet(s: System, i: WorldIx)
    requires ApplyWorld(s, i).Ok?
    ensures Quiet(s, ApplyWorld(s, i).value, false)
  {
    hide ApplyWorld;
    WorldShape(s, i);
    RecordsQuiet(s, ApplyWorld(s, i).value);
  }

  lemma StepQuiet(s: System, i: Instruction)
    requires Books(s) && !Writes(i) && !SetsPause(i)
    ensures Quiet(s, Step(s, i), Pays(i))
  {
    hide Books, ApplyController, ApplyOracle, ApplySettler, ApplyWorld, Writes, Pays;
    if Apply(s, i).Ok? {
      match i
      case ToController(c) => ControllerQuiet(s, c);
      case ToOracle(o) => OracleQuiet(s, o);
      case ToSettler(b) => SettlerQuiet(s, b);
      case Outside(w) => WorldQuiet(s, w);
    }
  }

  /** The pause instructions touch nothing but the pauses. */
  lemma PauseSteps(s: System, i: Instruction)
    requires SetsPause(i)
    ensures var t := Step(s, i);
            && t == s.(config := t.config) && t.config.admin == s.config.admin
            && (s.config.fullyPaused && !t.config.fullyPaused ==> LiftsFull(i) && i.controller.signer == s.config.admin)
            && (s.config.partiallyPaused && !t.config.partiallyPaused ==> LiftsPartial(i))
  {
    hide ApplyController, ApplyOracle, ApplySettler, ApplyWorld;
    if Apply(s, i).Ok? {
      SetPauses(s, i.controller);
    }
  }

  lemma SetPauses(s: System, i: ControllerIx)
    requires SetsPause(ToController(i)) && ApplyController(s, i).Ok?
    ensures var t := ApplyController(s, i).value;
            && t == s.(config := t.config) && t.config.admin == s.config.admin
            && (t.config.fullyPaused == if i.SetFullyPaused? then i.flag else s.config.fullyPaused)
            && (t.config.partiallyPaused == if i.SetPartiallyPaused? then i.flag else s.config.partiallyPaused)
            && (i.SetFullyPaused? ==> i.signer == s.config.admin)
  {
    hide Controller.InitializeCounter, Controller.OpenVault, Controller.Deposit, Controller.Mint, Controller.Settle,
         Controller.Redeem, Controller.EmergencyWithdrawVault, Controller.CreateSeries, Controller.SetExpiryPrice;
    match i
    case SetPartialPauser(_, _) =>
    case SetPartiallyPaused(_, _) =>
    case SetFullyPaused(_, _) =>
  }

  // ---------------------------------------------------------------- runs

  lemma QuietTrans(r: System, s: System, t: System)
    requires WritesNothing(r, s) && WritesNothing(s, t)
    ensures WritesNothing(r, t)
    ensures PaysNothing(r, s) && PaysNothing(s, t) ==> PaysNothing(r, t)
  {
    hide Total, FillOf;
  }

  lemma FullPauseStep(s: System, i: Instruction)
    requires Books(s) && s.config.fullyPaused && (LiftsFull(i) ==> i.controller.signer != s.config.admin)
    ensures var t := Step(s, i);
            t.config.fullyPaused && t.config.admin == s.config.admin && WritesNothing(s, t) && PaysNothing(s, t)
  {
    hide Books, Apply, Writes, Pays, WritesNothing, PaysNothing;
    if Writes(i) || Pays(i) {
      FullPauseRefuses(s, i);
      RecordsQuiet(s, s);
    } else if SetsPause(i) {
      PauseSteps(s, i);
      RecordsQuiet(s, Step(s, i));
    } else {
      StepQuiet(s, i);
    }
  }

  lemma PartialPauseStep(s: System, i: Instruction)
    requires Books(s) && s.config.partiallyPaused && !LiftsPartial(i)
    ensures Step(s, i).config.partiallyPaused && WritesNothing(s, Step(s, i))
  {
    hide Books, Apply, Writes, Pays, WritesNothing, PaysNothing;
    if Writes(i) {
      PartialPauseRefuses(s, i);
      RecordsQuiet(s, s);
    } else if SetsPause(i) {
      PauseSteps(s, i);
      RecordsQuiet(s, Step(s, i));
    } else {
      StepQuiet(s, i);
    }
  }

  /** Once the controller is fully paused, nothing is written, redeemed or settled
      until its admin lifts the pause: whatever is submitted, collateral leaves
      the pools through emergency exits only. */
  lemma {:induction false} FullPauseHalts(s: System, steps: seq<Instruction>)
    requires Books(s) && s.config.fullyPaused
    requires forall j | 0 <= j < |steps| && LiftsFull(steps[j]) :: steps[j].controller.signer != s.config.admin
    ensures var t := Run(s, steps);
            t.config.fullyPaused && t.config.admin == s.config.admin && WritesNothing(s, t) && PaysNothing(s, t)
  {
    hide Books, Step, LiftsFull, WritesNothing, PaysNothing;
    if steps == [] {
      RecordsQuiet(s, s);
    } else {
      var before := steps[..|steps| - 1];
      FullPauseHalts(s, before);
      RunProgress(s, before);
      FullPauseStep(Run(s, before), steps[|steps| - 1]);
      QuietTrans(s, Run(s, before), Run(s, steps));
    }
  }

  /** A partial pause stops new vaults, deposits, mints and fills until somebody
      lifts it; settlements and redemptions go on. */
  lemma {:induction false} PartialPauseStopsWriting(s: System, steps: seq<Instruction>)
    requires Books(s) && s.config.partiallyPaused
    requires forall j | 0 <= j < |steps| :: !LiftsPartial(steps[j])
    ensures Run(s, steps).config.partiallyPaused && WritesNothing(s, Run(s, steps))
  {
    hide Books, Step, LiftsPartial, WritesNothing, PaysNothing;
    if steps == [] {
      RecordsQuiet(s, s);
    } else {
      var before := steps[..|steps| - 1];
      PartialPauseStopsWriting(s, before);
      RunProgress(s, before);
      PartialPauseStep(Run(s, before), steps[|steps| - 1]);
      QuietTrans(s, Run(s, before), Run(s, steps));
    }
  }
}
