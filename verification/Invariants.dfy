/** What every run of the three programs keeps. */
module Invariants {
  import opened Wrappers
  import opened Ints
  import opened Payoff
  import opened Sums
  import opened Model
  import opened Tokens
  import opened Settler
  import opened SettlerBooks
  import opened OrderSteps
  import opened CustodySteps
  import opened DeliverySteps
  import opened QuoteSteps
  import opened PoolBooks
  import opened Solvency
  import opened SettlerPools
  import opened Machine
  import Controller
  import Oracle

  /** The books of both programs. */
  ghost predicate Books(s: System) {
    Inv(s) && SettlerInv(s)
  }

  lemma InitialBooks(s: System)
    requires Initial(s)
    ensures Books(s) && SeriesBooks(s)
  {
    forall mint ensures Balanced(s, mint) {
      assert PaidMap(s, mint) == map[] && HeldMap(s, mint) == map[];
    }
    forall c ensures DriftOk(s, c) { assert RemainingMap(s, c) == map[]; }
    forall mint ensures Backed(s, mint) { assert CustodyMap(s, mint) == map[]; }
    forall maker ensures FillsWritten(s, maker) { assert FilledMap(s, maker) == map[] && WrittenMap(s, maker) == map[]; }
  }

  /** An exit that leaves no oToken behind: the emergency withdrawal burns exactly
      what the vault is short of. Anyone can evaluate this before the call. */
  ghost predicate CleanExit(s: System, i: Instruction) {
    match i
    case ToController(EmergencyWithdrawVault(owner, id, _, _, _)) =>
      var k := VaultKey(Wallet(owner), id);
      k in s.vaults && !s.vaults[k].settled ==> s.vaults[k].short == 0
    case ToSettler(EmergencyWithdrawOrder(_, k, _, _, _, _, _, _)) =>
      k in s.vaults && k in s.attributions && !s.vaults[k].settled ==> BurnAmount(s, k) == s.vaults[k].short
    case _ => true
  }

  // ---------------------------------------------------------------- controller instructions

  lemma OpenForeign(s: System, owner: Key, mint: Key, beneficiary: Holder)
    requires SettlerInv(s) && Controller.OpenVault(s, Wallet(owner), mint, beneficiary).Ok?
    ensures SettlerInv(Controller.OpenVault(s, Wallet(owner), mint, beneficiary).value)
  {
    hide SettlerInv;
    SettlerConfigOk(s);
    ForeignKeeps(s, Controller.OpenVault(s, Wallet(owner), mint, beneficiary).value);
  }

  lemma DepositForeign(s: System, owner: Key, id: nat, from: Account, pool: Account, amount: u64, credited: nat)
    requires SettlerInv(s) && Controller.Deposit(s, Wallet(owner), id, from, pool, amount, credited).Ok?
    ensures SettlerInv(Controller.Deposit(s, Wallet(owner), id, from, pool, amount, credited).value)
  {
    hide SettlerInv;
    SettlerConfigOk(s);
    TransferMoves(s, Wallet(owner), from, pool, amount, credited);
    ForeignKeeps(s, Controller.Deposit(s, Wallet(owner), id, from, pool, amount, credited).value);
  }

  lemma MintForeign(s: System, owner: Key, id: nat, otoken: Key, to: Account, amount: u64)
    requires SettlerInv(s) && Controller.Mint(s, Wallet(owner), id, otoken, to, amount).Ok?
    ensures SettlerInv(Controller.Mint(s, Wallet(owner), id, otoken, to, amount).value)
  {
    hide SettlerInv, Controller.Mint, GetRequiredCollateral;
    MintMoves(s, Wallet(owner), id, otoken, to, amount);
    SettlerConfigOk(s);
    ForeignKeeps(s, Controller.Mint(s, Wallet(owner), id, otoken, to, amount).value);
  }

  lemma SettleForeign(s: System, signer: Key, k: VaultKey, pool: Account, to: Account, credited: nat)
    requires SettlerInv(s) && Controller.Settle(s, signer, k.owner, k.id, pool, to, credited).Ok?
    ensures SettlerInv(Controller.Settle(s, signer, k.owner, k.id, pool, to, credited).value)
  {
    hide SettlerInv, Controller.Settle, GetPayout;
    SettleMoves(s, signer, k.owner, k.id, pool, to, credited);
    SettlerConfigOk(s);
    ForeignKeeps(s, Controller.Settle(s, signer, k.owner, k.id, pool, to, credited).value);
  }

  lemma RedeemForeign(s: System, redeemer: Key, otoken: Key, from: Account, to: Account, pool: Account, amount: u64, credited: nat)
    requires SettlerInv(s) && Controller.Redeem(s, Wallet(redeemer), otoken, from, to, pool, amount, credited).Ok?
    ensures SettlerInv(Controller.Redeem(s, Wallet(redeemer), otoken, from, to, pool, amount, credited).value)
  {
    hide SettlerInv, GetPayout, Controller.Redeem;
    SettlerConfigOk(s);
    RedeemMoves(s, Wallet(redeemer), otoken, from, to, pool, amount, credited);
    ForeignKeeps(s, Controller.Redeem(s, Wallet(redeemer), otoken, from, to, pool, amount, credited).value);
  }

  lemma WithdrawForeign(s: System, owner: Key, id: nat, pool: Account, to: Account, credited: nat)
    requires SettlerInv(s) && Controller.EmergencyWithdrawVault(s, Wallet(owner), id, pool, to, credited).Ok?
    ensures SettlerInv(Controller.EmergencyWithdrawVault(s, Wallet(owner), id, pool, to, credited).value)
  {
    hide SettlerInv, Controller.EmergencyWithdrawVault;
    EmergencyMoves(s, Wallet(owner), id, pool, to, credited);
    SettlerConfigOk(s);
    ForeignKeeps(s, Controller.EmergencyWithdrawVault(s, Wallet(owner), id, pool, to, credited).value);
  }

  lemma SeriesForeign(s: System, t: System, otoken: Key)
    requires SettlerInv(s) && SeriesAdvance(s, t, otoken)
    ensures SettlerInv(t)
  {
    hide SettlerInv;
    SettlerConfigOk(s);
    ForeignKeeps(s, t);
  }

  // ---------------------------------------------------------------- the world outside

  lemma SendKeeps(s: System, owner: Key, from: Account, to: Account, amount: nat, credited: nat)
    requires Books(s) && SendTokens(s, owner, from, to, amount, credited).Ok?
    ensures Books(SendTokens(s, owner, from, to, amount, credited).value)
    ensures SeriesBooks(s) ==> SeriesBooks(SendTokens(s, owner, from, to, amount, credited).value)
  {
    hide Inv, SeriesBooks, SettlerInv, Transfer;
    TransferMoves(s, Wallet(owner), from, to, amount, credited);
    var t, sent := SendTokens(s, owner, from, to, amount, credited).value, Transfer(s, Wallet(owner), from, to, amount, credited).value;
    assert forall p :: t.Balance(p) == sent.Balance(p);
    OutsideStep(s, t, OutsideCredit(PurseOf(to), credited));
    if SeriesBooks(s) { IdleBooks(s, t); }
  }

  lemma IssueKeeps(s: System, to: Account, amount: nat)
    requires Books(s) && IssueTokens(s, to, amount).Ok?
    ensures Books(IssueTokens(s, to, amount).value)
    ensures SeriesBooks(s) ==> SeriesBooks(IssueTokens(s, to, amount).value)
  {
    hide Inv, SeriesBooks, SettlerInv, MintTo;
    var t := IssueTokens(s, to, amount).value;
    MintToMoves(s, to.mint, to, amount);
    assert forall p :: t.Balance(p) == s.Balance(p) + (if p == PurseOf(to) then amount else 0);
    OutsideStep(s, t, OutsideCredit(PurseOf(to), amount));
    if SeriesBooks(s) { IdleBooks(s, t); }
  }

  /** An outside event that the pools and the custody accounts follow. */
  lemma OutsideStep(s: System, t: System, e: Event)
    requires Books(s) && (e.OutsideCredit? || e.OutsideBurn?)
    requires t == s.(supply := t.supply, balances := t.balances, log := Then(s.log, e))
    requires forall p: Purse | !p.owner.Wallet? :: t.Balance(p) == s.Balance(p) + Amount(e, GiftsTo(p))
    ensures Books(t)
  {
    hide Inv, SettlerInv;
    NeutralStep(s, t, e);
    SettlerConfigOk(s);
    LogGrows(s.log, e);
    ForeignKeeps(s, t);
  }

  lemma SpendMoves(s: System, owner: Key, from: Account, amount: nat)
    requires SpendTokens(s, owner, from, amount).Ok?
    ensures var t := SpendTokens(s, owner, from, amount).value;
            && from.owner.Wallet? && amount <= s.Supply(from.mint)
            && t == s.(supply := t.supply, balances := t.balances, log := t.log)
            && t.log == (if from.mint in s.series then Then(s.log, OutsideBurn(from.mint, amount)) else s.log)
            && (forall o :: t.Supply(o) == s.Supply(o) - (if o == from.mint then amount else 0))
            && (forall p :: t.Balance(p) == s.Balance(p) - (if p == PurseOf(from) then amount else 0))
  {
    hide Burn;
    BurnMoves(s, Wallet(owner), from, amount);
    var t, burned := SpendTokens(s, owner, from, amount).value, Burn(s, Wallet(owner), from, amount).value;
    assert forall p :: t.Balance(p) == burned.Balance(p);
    assert forall o :: t.Supply(o) == burned.Supply(o);
  }

  lemma SpendKeeps(s: System, owner: Key, from: Account, amount: nat)
    requires Books(s) && SpendTokens(s, owner, from, amount).Ok?
    ensures Books(SpendTokens(s, owner, from, amount).value)
    ensures SeriesBooks(s) ==> SeriesBooks(SpendTokens(s, owner, from, amount).value)
  {
    hide Inv, SeriesBooks, SettlerInv, SpendTokens;
    SpendMoves(s, owner, from, amount);
    var t := SpendTokens(s, owner, from, amount).value;
    if from.mint in s.series {
      OutsideStep(s, t, OutsideBurn(from.mint, amount));
      if SeriesBooks(s) { OutsideBurnBooks(s, t, from.mint, amount); }
    } else {
      ForeignSpend(s, t);
    }
  }

  /** Tokens no program accounts for. */
  lemma ForeignSpend(s: System, t: System)
    requires Books(s) && t == s.(supply := t.supply, balances := t.balances)
    requires forall o | o in s.series :: t.Supply(o) == s.Supply(o)
    requires forall p: Purse | !p.owner.Wallet? :: t.Balance(p) == s.Balance(p)
    ensures Books(t) && (SeriesBooks(s) ==> SeriesBooks(t))
  {
    hide Inv, SeriesBooks, SettlerInv;
    InvVaultIds(s);
    QuietStep(s, t);
    SettlerConfigOk(s);
    ForeignKeeps(s, t);
    if SeriesBooks(s) { IdleBooks(s, t); }
  }

  // ---------------------------------------------------------------- configuration

  /** Changes outside the vaults, the series and the ledgers: the clock, pauses,
      fees, feeds, counters, new oracle prices. */
  lemma Paperwork(s: System, t: System)
    requires Books(s)
    requires t == s.(now := t.now, config := t.config, counters := t.counters, oracle := t.oracle, feeds := t.feeds,
                     prices := t.prices, settler := t.settler)
    requires s.now <= t.now && VaultIds(t) && ConfigOk(t.settler)
    requires forall p | p in s.prices :: p in t.prices && t.prices[p] == s.prices[p]
    ensures Books(t)
    ensures SeriesBooks(s) ==> SeriesBooks(t)
  {
    hide Inv, SeriesBooks, SettlerInv;
    QuietStep(s, t);
    ForeignKeeps(s, t);
    if SeriesBooks(s) { IdleBooks(s, t); }
  }

  lemma BooksBasics(s: System)
    requires Books(s)
    ensures VaultIds(s) && ConfigOk(s.settler) && 0 !in s.series
    ensures forall o | o in s.series :: SeriesOk(s, o)
  {
  }

  // ---------------------------------------------------------------- steps

  /** A step keeps the books, and the oToken side of them unless it is an exit
      that leaves oTokens behind. */
  ghost predicate Kept(s: System, i: Instruction) {
    Apply(s, i).Ok? ==> Books(Apply(s, i).value) && (SeriesBooks(s) && CleanExit(s, i) ==> SeriesBooks(Apply(s, i).value))
  }

  ghost predicate PaperTrail(s: System, t: System) {
    && t == s.(now := t.now, config := t.config, counters := t.counters, oracle := t.oracle, feeds := t.feeds,
               prices := t.prices, settler := t.settler)
    && s.now <= t.now && ConfigOk(t.settler)
    && (forall p | p in s.prices :: p in t.prices && t.prices[p] == s.prices[p])
    && (t.counters == s.counters || exists owner :: owner !in s.counters && t.counters == s.counters[owner := 0])
  }

  lemma NewCounter(s: System, t: System)
    requires VaultIds(s) && PaperTrail(s, t)
    ensures VaultIds(t)
  {
  }

  lemma TrailKeeps(s: System, i: Instruction)
    requires Books(s) && (Apply(s, i).Ok? ==> PaperTrail(s, Apply(s, i).value))
    ensures Kept(s, i)
  {
    hide Books, SeriesBooks, CleanExit, Apply, VaultIds;
    if Apply(s, i).Ok? {
      BooksBasics(s);
      NewCounter(s, Apply(s, i).value);
      Paperwork(s, Apply(s, i).value);
    }
  }

  lemma FinalizeTrail(s: System, signer: Key, underlying: Key, expiry: i64, price: u64, a: Oracle.PriceAccount)
    requires Oracle.SetExpiryPrice(s, signer, underlying, expiry, price, a).Ok?
    ensures PriceKey(underlying, expiry) !in s.prices && price > 0
    ensures Oracle.SetExpiryPrice(s, signer, underlying, expiry, price, a).value
         == s.(prices := s.prices[PriceKey(underlying, expiry) := price])
  {
    hide Oracle.ParsePrice, Oracle.Normalize, Oracle.ValidatePriceDeviation, Oracle.ValidateConfidence, Oracle.ValidateStaleness;
  }

  lemma OracleTrail(s: System, i: OracleIx)
    requires ConfigOk(s.settler) && ApplyOracle(s, i).Ok?
    ensures PaperTrail(s, ApplyOracle(s, i).value)
    ensures s.oracle.thresholdBps > 0 ==> ApplyOracle(s, i).value.oracle.thresholdBps > 0
  {
    hide Oracle.SetExpiryPrice;
    if i.FinalizePrice? {
      FinalizeTrail(s, i.signer, i.underlying, i.expiry, i.price, i.account);
    }
  }

  lemma OracleStep(s: System, i: OracleIx)
    requires Books(s)
    ensures Kept(s, ToOracle(i))
  {
    hide Kept, Books, ApplyOracle, PaperTrail;
    BooksBasics(s);
    if ApplyOracle(s, i).Ok? {
      OracleTrail(s, i);
    }
    TrailKeeps(s, ToOracle(i));
  }

  lemma OpenStep(s: System, owner: Key, mint: Key, beneficiary: Holder)
    requires Books(s) && Controller.OpenVault(s, Wallet(owner), mint, beneficiary).Ok?
    ensures Books(Controller.OpenVault(s, Wallet(owner), mint, beneficiary).value)
    ensures SeriesBooks(s) ==> SeriesBooks(Controller.OpenVault(s, Wallet(owner), mint, beneficiary).value)
  {
    hide Inv, SettlerInv, SeriesBooks, Controller.OpenVault;
    OpenVaultKeeps(s, Wallet(owner), mint, beneficiary);
    OpenForeign(s, owner, mint, beneficiary);
    if SeriesBooks(s) { OpenVaultBooks(s, Wallet(owner), mint, beneficiary); }
  }

  lemma DepositStep(s: System, owner: Key, id: nat, from: Account, pool: Account, amount: u64, credited: nat)
    requires Books(s) && Controller.Deposit(s, Wallet(owner), id, from, pool, amount, credited).Ok?
    ensures Books(Controller.Deposit(s, Wallet(owner), id, from, pool, amount, credited).value)
    ensures SeriesBooks(s) ==> SeriesBooks(Controller.Deposit(s, Wallet(owner), id, from, pool, amount, credited).value)
  {
    hide Inv, SettlerInv, SeriesBooks, Controller.Deposit;
    assert !from.owner.PoolAuthority? by { DepositSource(s, owner, id, from, pool, amount, credited); }
    DepositKeeps(s, Wallet(owner), id, from, pool, amount, credited);
    DepositForeign(s, owner, id, from, pool, amount, credited);
    if SeriesBooks(s) { DepositBooks(s, Wallet(owner), id, from, pool, amount, credited); }
  }

  lemma DepositSource(s: System, owner: Key, id: nat, from: Account, pool: Account, amount: u64, credited: nat)
    requires Controller.Deposit(s, Wallet(owner), id, from, pool, amount, credited).Ok?
    ensures from.owner.Wallet?
  {
  }

  lemma MintStep(s: System, owner: Key, id: nat, otoken: Key, to: Account, amount: u64)
    requires Books(s) && Controller.Mint(s, Wallet(owner), id, otoken, to, amount).Ok?
    ensures Books(Controller.Mint(s, Wallet(owner), id, otoken, to, amount).value)
    ensures SeriesBooks(s) ==> SeriesBooks(Controller.Mint(s, Wallet(owner), id, otoken, to, amount).value)
  {
    hide Inv, SettlerInv, SeriesBooks, Controller.Mint;
    MintKeeps(s, Wallet(owner), id, otoken, to, amount);
    MintForeign(s, owner, id, otoken, to, amount);
    if SeriesBooks(s) { MintBooks(s, Wallet(owner), id, otoken, to, amount); }
  }

  /** By the controller's admin, directly or through the settler. */
  lemma SettleStep(s: System, signer: Key, k: VaultKey, pool: Account, to: Account, credited: nat)
    requires Books(s) && Controller.Settle(s, signer, k.owner, k.id, pool, to, credited).Ok?
    ensures Books(Controller.Settle(s, signer, k.owner, k.id, pool, to, credited).value)
    ensures SeriesBooks(s) ==> SeriesBooks(Controller.Settle(s, signer, k.owner, k.id, pool, to, credited).value)
  {
    hide Inv, SettlerInv, SeriesBooks, Controller.Settle;
    SettleKeeps(s, signer, k.owner, k.id, pool, to, credited);
    SettleForeign(s, signer, k, pool, to, credited);
    if SeriesBooks(s) { SettleBooks(s, signer, k.owner, k.id, pool, to, credited); }
  }

  lemma RedeemStep(s: System, redeemer: Key, otoken: Key, from: Account, to: Account, pool: Account, amount: u64, credited: nat)
    requires Books(s) && Controller.Redeem(s, Wallet(redeemer), otoken, from, to, pool, amount, credited).Ok?
    ensures Books(Controller.Redeem(s, Wallet(redeemer), otoken, from, to, pool, amount, credited).value)
    ensures SeriesBooks(s) ==> SeriesBooks(Controller.Redeem(s, Wallet(redeemer), otoken, from, to, pool, amount, credited).value)
  {
    hide Inv, SettlerInv, SeriesBooks, Controller.Redeem;
    RedeemKeeps(s, Wallet(redeemer), otoken, from, to, pool, amount, credited);
    RedeemForeign(s, redeemer, otoken, from, to, pool, amount, credited);
    if SeriesBooks(s) { RedeemBooks(s, Wallet(redeemer), otoken, from, to, pool, amount, credited); }
  }

  /** The direct exit burns nothing, so it is clean only for vaults without a short. */
  lemma WithdrawStep(s: System, owner: Key, id: nat, pool: Account, to: Account, credited: nat)
    requires Books(s) && Controller.EmergencyWithdrawVault(s, Wallet(owner), id, pool, to, credited).Ok?
    ensures Books(Controller.EmergencyWithdrawVault(s, Wallet(owner), id, pool, to, credited).value)
    ensures VaultKey(Wallet(owner), id) in s.vaults && !s.vaults[VaultKey(Wallet(owner), id)].settled
    ensures SeriesBooks(s) ==>
      (SeriesBooks(Controller.EmergencyWithdrawVault(s, Wallet(owner), id, pool, to, credited).value)
       <==> s.vaults[VaultKey(Wallet(owner), id)].short == 0)
  {
    hide Inv, SettlerInv, SeriesBooks, Controller.EmergencyWithdrawVault;
    EmergencyKeeps(s, Wallet(owner), id, pool, to, credited);
    WithdrawForeign(s, owner, id, pool, to, credited);
    EmergencyMoves(s, Wallet(owner), id, pool, to, credited);
    if SeriesBooks(s) {
      var t := Controller.EmergencyWithdrawVault(s, Wallet(owner), id, pool, to, credited).value;
      RescueBooks(s, t, VaultKey(Wallet(owner), id), t.log.event, 0);
    }
  }

  lemma CreateStep(s: System, signer: Key, isOperator: bool, otoken: Key, o: Series)
    requires Books(s) && Controller.CreateSeries(s, signer, isOperator, otoken, o).Ok?
    ensures Books(Controller.CreateSeries(s, signer, isOperator, otoken, o).value)
    ensures SeriesBooks(s) ==> SeriesBooks(Controller.CreateSeries(s, signer, isOperator, otoken, o).value)
  {
    hide Inv, SettlerInv, SeriesBooks;
    CreateSeriesKeeps(s, signer, isOperator, otoken, o);
    var t := Controller.CreateSeries(s, signer, isOperator, otoken, o).value;
    SeriesForeign(s, t, otoken);
    if SeriesBooks(s) { SeriesAdvanceBooks(s, t, otoken); }
  }

  lemma PriceStep(s: System, signer: Key, otoken: Key)
    requires Books(s) && Controller.SetExpiryPrice(s, signer, otoken).Ok?
    ensures Books(Controller.SetExpiryPrice(s, signer, otoken).value)
    ensures SeriesBooks(s) ==> SeriesBooks(Controller.SetExpiryPrice(s, signer, otoken).value)
  {
    hide Inv, SettlerInv, SeriesBooks;
    SetExpiryPriceKeeps(s, signer, otoken);
    var t := Controller.SetExpiryPrice(s, signer, otoken).value;
    SeriesForeign(s, t, otoken);
    if SeriesBooks(s) { SeriesAdvanceBooks(s, t, otoken); }
  }

  lemma ControllerStep(s: System, i: ControllerIx)
    requires Books(s)
    ensures Kept(s, ToController(i))
  {
    hide Books, SeriesBooks, Controller.OpenVault, Controller.Deposit, Controller.Mint, Controller.Settle, Controller.Redeem,
         Controller.EmergencyWithdrawVault, Controller.CreateSeries, Controller.SetExpiryPrice;
    BooksBasics(s);
    if ApplyController(s, i).Ok? {
      match i
      case OpenVault(owner, mint, beneficiary) => OpenStep(s, owner, mint, beneficiary);
      case DepositCollateral(owner, id, from, pool, amount, credited) => DepositStep(s, owner, id, from, pool, amount, credited);
      case MintOtoken(owner, id, otoken, to, amount) => MintStep(s, owner, id, otoken, to, amount);
      case SettleVault(signer, k, pool, to, credited) => SettleStep(s, signer, k, pool, to, credited);
      case Redeem(redeemer, otoken, from, to, pool, amount, credited) =>
        RedeemStep(s, redeemer, otoken, from, to, pool, amount, credited);
      case EmergencyWithdrawVault(owner, id, pool, to, credited) => WithdrawStep(s, owner, id, pool, to, credited);
      case CreateOTokenInfo(signer, isOperator, otoken, info) => CreateStep(s, signer, isOperator, otoken, info);
      case SetSeriesPrice(signer, otoken) => PriceStep(s, signer, otoken);
      case _ => ControllerTrail(s, i);
    }
  }

  ghost predicate ControllerPaperwork(i: ControllerIx) {
    i.InitializeCounter? || i.SetPartialPauser? || i.SetPartiallyPaused? || i.SetFullyPaused?
  }

  lemma ControllerPaperTrail(s: System, i: ControllerIx)
    requires ConfigOk(s.settler) && ControllerPaperwork(i) && ApplyController(s, i).Ok?
    ensures PaperTrail(s, ApplyController(s, i).value) && ApplyController(s, i).value.oracle == s.oracle
  {
    hide Controller.OpenVault, Controller.Deposit, Controller.Mint, Controller.Settle, Controller.Redeem,
         Controller.EmergencyWithdrawVault, Controller.CreateSeries, Controller.SetExpiryPrice;
    if i.InitializeCounter? {
      assert ApplyController(s, i).value.counters == s.counters[Wallet(i.owner) := 0];
    }
  }

  /** Counters and pauses. */
  lemma ControllerTrail(s: System, i: ControllerIx)
    requires Books(s) && ControllerPaperwork(i)
    ensures Kept(s, ToController(i))
  {
    hide Kept, Books, ApplyController, PaperTrail;
    BooksBasics(s);
    if ApplyController(s, i).Ok? {
      ControllerPaperTrail(s, i);
    }
    TrailKeeps(s, ToController(i));
  }

  // ---------------------------------------------------------------- settler instructions

  /** Quotes and makers are outside the controller's books. */
  lemma QuoteStep(s: System, i: SettlerIx)
    requires Books(s) && (i.WhitelistMaker? || i.IncrementMakerNonce? || i.CancelQuote?)
    ensures Kept(s, ToSettler(i))
  {
    hide Inv, SettlerInv, SeriesBooks, Settler.ExecuteOrder, Settler.SettleVault, Settler.EmergencyWithdraw, Settler.RedeemForMM,
         Settler.MMSelfRedeem, Settler.PhysicalRedeem, Settler.SetProtocolFee, Settler.SetEscapeDelay, Settler.SetTreasury,
         Settler.SetPaused, Settler.SetOperator, Settler.SetJupiterProgram, Controller.InitializeCounter;
    if ApplySettler(s, i).Ok? {
      RecordsOnly(s, ApplySettler(s, i).value);
      match i
      case WhitelistMaker(signer, maker, flag) => WhitelistKeeps(s, signer, maker, flag);
      case IncrementMakerNonce(maker) => NonceKeeps(s, maker);
      case CancelQuote(maker, quoteId) => CancelKeeps(s, maker, quoteId);
    }
  }

  lemma OrderStep(s: System, a: Order)
    requires Books(s) && Settler.ExecuteOrder(s, a).Ok?
    ensures Books(Settler.ExecuteOrder(s, a).value)
    ensures SeriesBooks(s) ==> SeriesBooks(Settler.ExecuteOrder(s, a).value)
  {
    hide Inv, SettlerInv, SeriesBooks, Settler.ExecuteOrder;
    BooksBasics(s);
    OrderPools(s, a);
    OrderKeeps(s, a);
  }

  lemma CashStep(s: System, t: System, c: CustodyKey, amount: u64, credited: nat)
    requires Books(s) && CashedOut(s, t, c, amount, credited)
    ensures Books(t) && (SeriesBooks(s) ==> SeriesBooks(t))
  {
    hide Inv, SettlerInv, SeriesBooks, CashedOut;
    CashPools(s, t, c, amount, credited);
    CashKeeps(s, t, c, amount, credited);
  }

  lemma DeliveryStep(s: System, d: Delivery)
    requires Books(s) && Settler.PhysicalRedeem(s, d).Ok?
    ensures Books(Settler.PhysicalRedeem(s, d).value)
    ensures SeriesBooks(s) ==> SeriesBooks(Settler.PhysicalRedeem(s, d).value)
  {
    hide Inv, SettlerInv, SeriesBooks, Settler.PhysicalRedeem, Delivered;
    BooksBasics(s);
    PhysicalRedeemEffect(s, d);
    DeliveryPools(s, Settler.PhysicalRedeem(s, d).value, d);
    DeliveryKeeps(s, Settler.PhysicalRedeem(s, d).value, d);
  }

  lemma ExitStep(s: System, signer: Key, k: VaultKey, maker: Key, otoken: Key, settlerOtoken: Account,
                 pool: Account, to: Account, credited: nat)
    requires Books(s) && EmergencyWithdraw(s, signer, k, maker, otoken, settlerOtoken, pool, to, credited).Ok?
    ensures k in s.vaults && k in s.attributions && !s.vaults[k].settled
    ensures Books(EmergencyWithdraw(s, signer, k, maker, otoken, settlerOtoken, pool, to, credited).value)
    ensures SeriesBooks(s) ==>
      (SeriesBooks(EmergencyWithdraw(s, signer, k, maker, otoken, settlerOtoken, pool, to, credited).value)
       <==> BurnAmount(s, k) == s.vaults[k].short)
  {
    hide Inv, SettlerInv, SeriesBooks, EmergencyWithdraw, BurnAmount;
    var t := EmergencyWithdraw(s, signer, k, maker, otoken, settlerOtoken, pool, to, credited).value;
    ExitPools(s, signer, k, maker, otoken, settlerOtoken, pool, to, credited);
    ExitEffect(s, signer, k, maker, otoken, settlerOtoken, pool, to, credited);
    ExitKeeps(s, t, k);
    SettlerAttributions(s);
    ExitRescues(s, signer, k, maker, otoken, settlerOtoken, pool, to, credited);
    if SeriesBooks(s) {
      RescueBooks(s, t, k, t.log.event, BurnAmount(s, k));
    }
  }

  lemma SettlerAttributions(s: System)
    requires SettlerInv(s)
    ensures AttributionsOk(s)
  {
  }

  lemma SettlerStep(s: System, i: SettlerIx)
    requires Books(s)
    ensures Kept(s, ToSettler(i))
  {
    hide Books, SeriesBooks, Settler.ExecuteOrder, Controller.Settle, EmergencyWithdraw, RedeemAndForward, CheckRedeemAccounts,
         Settler.PhysicalRedeem, BurnAmount, CashedOut;
    BooksBasics(s);
    if ApplySettler(s, i).Ok? {
      match i
      case ExecuteOrder(a) => OrderStep(s, a);
      case SettleVaultForMaker(operator, signer, k, pool, to, credited) => SettleStep(s, signer, k, pool, to, credited);
      case EmergencyWithdrawOrder(signer, k, maker, otoken, settlerOtoken, pool, to, credited) =>
        ExitStep(s, signer, k, maker, otoken, settlerOtoken, pool, to, credited);
      case RedeemForMM(operator, c, accounts, amount, credited) =>
        CashRoutesPayExactly(s, operator, c, accounts, amount, credited);
        CashStep(s, ApplySettler(s, i).value, c, amount, credited);
      case MMSelfRedeem(maker, otoken, accounts, amount, credited) =>
        CashRoutesPayExactly(s, 0, CustodyKey(maker, otoken), accounts, amount, credited);
        CashStep(s, ApplySettler(s, i).value, CustodyKey(maker, otoken), amount, credited);
      case PhysicalRedeem(d) => DeliveryStep(s, d);
      case WhitelistMaker(_, _, _) => QuoteStep(s, i);
      case IncrementMakerNonce(_) => QuoteStep(s, i);
      case CancelQuote(_, _) => QuoteStep(s, i);
      case _ => SettlerTrail(s, i);
    }
  }

  ghost predicate SettlerPaperwork(i: SettlerIx) {
    i.InitVaultCounter? || i.SetProtocolFee? || i.SetEscapeDelay? || i.SetOperator? || i.SetJupiterProgram?
    || i.SetTreasury? || i.Pause?
  }

  lemma SettlerPaperTrail(s: System, i: SettlerIx)
    requires ConfigOk(s.settler) && SettlerPaperwork(i) && ApplySettler(s, i).Ok?
    ensures PaperTrail(s, ApplySettler(s, i).value) && ApplySettler(s, i).value.oracle == s.oracle
  {
    hide Settler.ExecuteOrder, Settler.SettleVault, Settler.EmergencyWithdraw, Settler.RedeemForMM, Settler.MMSelfRedeem,
         Settler.PhysicalRedeem, Settler.WhitelistMaker, Settler.IncrementNonce, Settler.CancelQuote;
    if i.InitVaultCounter? {
      assert ApplySettler(s, i).value.counters == s.counters[SettlerPda := 0];
    }
  }

  /** The settler's counter and configuration. */
  lemma SettlerTrail(s: System, i: SettlerIx)
    requires Books(s) && SettlerPaperwork(i)
    ensures Kept(s, ToSettler(i))
  {
    hide Kept, Books, ApplySettler, PaperTrail;
    BooksBasics(s);
    if ApplySettler(s, i).Ok? {
      SettlerPaperTrail(s, i);
    }
    TrailKeeps(s, ToSettler(i));
  }

  lemma WorldStep(s: System, i: WorldIx)
    requires Books(s)
    ensures Kept(s, Outside(i))
  {
    hide Books, SeriesBooks, SendTokens, IssueTokens, SpendTokens;
    BooksBasics(s);
    if ApplyWorld(s, i).Ok? {
      match i
      case Tick(now) => TrailKeeps(s, Outside(i));
      case Send(owner, from, to, units, credited) => SendKeeps(s, owner, from, to, units, credited);
      case Issue(to, units) => IssueKeeps(s, to, units);
      case Spend(owner, from, units) => SpendKeeps(s, owner, from, units);
    }
  }

  /** Every instruction, by anyone, with any accounts, keeps the books. */
  lemma StepKeeps(s: System, i: Instruction)
    requires Books(s)
    ensures Books(Step(s, i))
    ensures SeriesBooks(s) && CleanExit(s, i) ==> SeriesBooks(Step(s, i))
  {
    hide Books, SeriesBooks, CleanExit, Apply;
    match i
    case ToController(c) => ControllerStep(s, c);
    case ToOracle(o) => OracleStep(s, o);
    case ToSettler(b) => SettlerStep(s, b);
    case Outside(w) => WorldStep(s, w);
  }

  // ---------------------------------------------------------------- runs

  /** Runs from the initial state keep the books of both programs. */
  lemma {:induction false} RunKeeps(s: System, steps: seq<Instruction>)
    requires Initial(s)
    ensures Books(Run(s, steps))
  {
    hide Books, Initial, Step;
    if steps == [] {
      InitialBooks(s);
    } else {
      RunKeeps(s, steps[..|steps| - 1]);
      StepKeeps(Run(s, steps[..|steps| - 1]), steps[|steps| - 1]);
    }
  }

  /** Runs whose emergency exits, if any, leave no oToken behind. */
  ghost predicate CleanRun(s: System, steps: seq<Instruction>) {
    steps == [] ||
    var before := steps[..|steps| - 1];
    CleanRun(s, before) && CleanExit(Run(s, before), steps[|steps| - 1])
  }

  lemma {:induction false} CleanRunKeeps(s: System, steps: seq<Instruction>)
    requires Initial(s) && CleanRun(s, steps)
    ensures Books(Run(s, steps)) && SeriesBooks(Run(s, steps))
  {
    hide Books, SeriesBooks, Initial, Step, CleanExit;
    if steps == [] {
      InitialBooks(s);
    } else {
      CleanRunKeeps(s, steps[..|steps| - 1]);
      StepKeeps(Run(s, steps[..|steps| - 1]), steps[|steps| - 1]);
    }
  }

  ghost predicate IsExit(i: Instruction) {
    (i.ToController? && i.controller.EmergencyWithdrawVault?) || (i.ToSettler? && i.settler.EmergencyWithdrawOrder?)
  }

  lemma {:induction false} ExitFreeIsClean(s: System, steps: seq<Instruction>)
    requires forall j | 0 <= j < |steps| :: !IsExit(steps[j])
    ensures CleanRun(s, steps)
  {
    hide Run;
    if steps != [] {
      ExitFreeIsClean(s, steps[..|steps| - 1]);
    }
  }
}
