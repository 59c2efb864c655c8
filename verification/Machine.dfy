/** Every instruction as one atomic step, and runs of them. */
module Machine {
  import opened Wrappers
  import opened Ints
  import opened Payoff
  import opened Sums
  import opened Bytes
  import opened Model
  import opened Tokens
  import opened Settler
  import Controller
  import Oracle

  datatype ControllerIx =
    | InitializeCounter(owner: Key)
    | OpenVault(owner: Key, collateralMint: Key, beneficiary: Holder)
    | DepositCollateral(owner: Key, id: nat, from: Account, pool: Account, amount: u64, credited: nat)
    | MintOtoken(owner: Key, id: nat, otoken: Key, to: Account, amount: u64)
    | SettleVault(signer: Key, vault: VaultKey, pool: Account, to: Account, credited: nat)
    | Redeem(redeemer: Key, otoken: Key, from: Account, to: Account, pool: Account, amount: u64, credited: nat)
    | EmergencyWithdrawVault(owner: Key, id: nat, pool: Account, to: Account, credited: nat)
    | CreateOTokenInfo(signer: Key, isOperator: bool, otoken: Key, info: Series)
    | SetSeriesPrice(signer: Key, otoken: Key)
    | SetPartialPauser(signer: Key, pauser: Key)
    | SetPartiallyPaused(signer: Key, flag: bool)
    | SetFullyPaused(signer: Key, flag: bool)

  datatype OracleIx =
    | FinalizePrice(signer: Key, underlying: Key, expiry: i64, price: u64, account: Oracle.PriceAccount)
    | RegisterFeed(signer: Key, underlying: Key, feedId: seq<byte>)
    | SetFeedActive(signer: Key, underlying: Key, flag: bool)
    | DeregisterFeed(signer: Key, underlying: Key)
    | SetOracleOperator(signer: Key, operator: Key)
    | TransferOwnership(signer: Key, newAdmin: Key)
    | AcceptOwnership(signer: Key)
    | SetThreshold(signer: Key, bps: u16)
    | SetLimits(signer: Key, maxStaleness: u64, bps: u16)

  datatype SettlerIx =
    | InitVaultCounter(signer: Key)
    | WhitelistMaker(signer: Key, maker: Key, flag: bool)
    | IncrementMakerNonce(maker: Key)
    | CancelQuote(maker: Key, quoteId: u64)
    | ExecuteOrder(order: Order)
    | SettleVaultForMaker(operator: Key, signer: Key, vault: VaultKey, pool: Account, to: Account, credited: nat)
    | EmergencyWithdrawOrder(signer: Key, vault: VaultKey, maker: Key, otoken: Key, settlerOtoken: Account,
                             pool: Account, to: Account, credited: nat)
    | RedeemForMM(operator: Key, custody: CustodyKey, accounts: RedeemAccounts, amount: u64, credited: nat)
    | MMSelfRedeem(maker: Key, otoken: Key, accounts: RedeemAccounts, amount: u64, credited: nat)
    | PhysicalRedeem(delivery: Delivery)
    | SetProtocolFee(signer: Key, bps: u16)
    | SetEscapeDelay(signer: Key, delay: i64)
    | SetOperator(signer: Key, operator: Key)
    | SetJupiterProgram(signer: Key, jupiter: Key)
    | SetTreasury(signer: Key, treasury: Holder)
    | Pause(signer: Key, flag: bool)

  /** The world outside the three programs. */
  datatype WorldIx =
    | Tick(now: i64)
    | Send(owner: Key, from: Account, to: Account, units: nat, credited: nat)
    | Issue(to: Account, units: nat)
    | Spend(owner: Key, from: Account, units: nat)

  datatype Instruction =
    | ToController(controller: ControllerIx)
    | ToOracle(oracle: OracleIx)
    | ToSettler(settler: SettlerIx)
    | Outside(world: WorldIx)

  // ---------------------------------------------------------------- outside

  /** Wallets move their own tokens as they like. */
  function SendTokens(s: System, owner: Key, from: Account, to: Account, amount: nat, credited: nat): Result<System> {
    var sender := Wallet(owner);
    :- Need(from.owner == sender, TokenOwnerMismatch);
    var t :- Transfer(s, sender, from, to, amount, credited);
    Ok(t.Emit(OutsideCredit(PurseOf(to), credited)))
  }

  /** Mints other than oTokens are issued by others. */
  function IssueTokens(s: System, to: Account, amount: nat): Result<System> {
    var mint := to.mint;
    :- Need(mint !in s.series, Environment);
    var t :- MintTo(s, mint, to, amount);
    Ok(t.Emit(OutsideCredit(PurseOf(to), amount)))
  }

  /** Holders may burn what they hold; for oTokens that is an event here. */
  function SpendTokens(s: System, owner: Key, from: Account, amount: nat): Result<System> {
    var sender := Wallet(owner);
    :- Need(from.owner == sender, TokenOwnerMismatch);
    var t :- Burn(s, sender, from, amount);
    Ok(if from.mint in s.series then t.Emit(OutsideBurn(from.mint, amount)) else t)
  }

  function Advance(s: System, now: i64): Result<System> {
    var elapsed := now - s.now;
    :- Need(elapsed >= 0, Environment);
    Ok(s.(now := now))
  }

  // ---------------------------------------------------------------- steps

  function ApplyController(s: System, i: ControllerIx): Result<System> {
    match i
    case InitializeCounter(owner) => Controller.InitializeCounter(s, Wallet(owner))
    case OpenVault(owner, mint, beneficiary) => Controller.OpenVault(s, Wallet(owner), mint, beneficiary)
    case DepositCollateral(owner, id, from, pool, amount, credited) =>
      Controller.Deposit(s, Wallet(owner), id, from, pool, amount, credited)
    case MintOtoken(owner, id, otoken, to, amount) => Controller.Mint(s, Wallet(owner), id, otoken, to, amount)
    case SettleVault(signer, k, pool, to, credited) => Controller.Settle(s, signer, k.owner, k.id, pool, to, credited)
    case Redeem(redeemer, otoken, from, to, pool, amount, credited) =>
      Controller.Redeem(s, Wallet(redeemer), otoken, from, to, pool, amount, credited)
    case EmergencyWithdrawVault(owner, id, pool, to, credited) =>
      Controller.EmergencyWithdrawVault(s, Wallet(owner), id, pool, to, credited)
    case CreateOTokenInfo(signer, isOperator, otoken, info) => Controller.CreateSeries(s, signer, isOperator, otoken, info)
    case SetSeriesPrice(signer, otoken) => Controller.SetExpiryPrice(s, signer, otoken)
    case SetPartialPauser(signer, pauser) => Controller.SetPartialPauser(s, signer, pauser)
    case SetPartiallyPaused(signer, flag) => Controller.SetPartiallyPaused(s, signer, flag)
    case SetFullyPaused(signer, flag) => Controller.SetFullyPaused(s, signer, flag)
  }

  function ApplyOracle(s: System, i: OracleIx): Result<System> {
    match i
    case FinalizePrice(signer, underlying, expiry, price, account) =>
      Oracle.SetExpiryPrice(s, signer, underlying, expiry, price, account)
    case RegisterFeed(signer, underlying, feedId) => Oracle.RegisterFeed(s, signer, underlying, feedId)
    case SetFeedActive(signer, underlying, flag) => Oracle.SetFeedActive(s, signer, underlying, flag)
    case DeregisterFeed(signer, underlying) => Oracle.DeregisterFeed(s, signer, underlying)
    case SetOracleOperator(signer, operator) => Oracle.SetOperator(s, signer, operator)
    case TransferOwnership(signer, newAdmin) => Oracle.TransferOwnership(s, signer, newAdmin)
    case AcceptOwnership(signer) => Oracle.AcceptOwnership(s, signer)
    case SetThreshold(signer, bps) => Oracle.SetThreshold(s, signer, bps)
    case SetLimits(signer, maxStaleness, bps) => Oracle.SetLimits(s, signer, maxStaleness, bps)
  }

  function ApplySettler(s: System, i: SettlerIx): Result<System> {
    match i
    case InitVaultCounter(signer) =>
      if signer == s.settler.owner then Controller.InitializeCounter(s, SettlerPda) else Err(ConstraintViolated)
    case WhitelistMaker(signer, maker, flag) => Settler.WhitelistMaker(s, signer, maker, flag)
    case IncrementMakerNonce(maker) => Settler.IncrementNonce(s, maker)
    case CancelQuote(maker, quoteId) => Settler.CancelQuote(s, maker, quoteId)
    case ExecuteOrder(order) => Settler.ExecuteOrder(s, order)
    case SettleVaultForMaker(operator, signer, k, pool, to, credited) =>
      Settler.SettleVault(s, operator, signer, k.owner, k.id, pool, to, credited)
    case EmergencyWithdrawOrder(signer, k, maker, otoken, settlerOtoken, pool, to, credited) =>
      Settler.EmergencyWithdraw(s, signer, k, maker, otoken, settlerOtoken, pool, to, credited)
    case RedeemForMM(operator, custody, accounts, amount, credited) =>
      Settler.RedeemForMM(s, operator, custody, accounts, amount, credited)
    case MMSelfRedeem(maker, otoken, accounts, amount, credited) =>
      Settler.MMSelfRedeem(s, maker, otoken, accounts, amount, credited)
    case PhysicalRedeem(delivery) => Settler.PhysicalRedeem(s, delivery)
    case SetProtocolFee(signer, bps) => Settler.SetProtocolFee(s, signer, bps)
    case SetEscapeDelay(signer, delay) => Settler.SetEscapeDelay(s, signer, delay)
    case SetOperator(signer, operator) => Settler.SetOperator(s, signer, operator)
    case SetJupiterProgram(signer, jupiter) => Settler.SetJupiterProgram(s, signer, jupiter)
    case SetTreasury(signer, treasury) => Settler.SetTreasury(s, signer, treasury)
    case Pause(signer, flag) => Settler.SetPaused(s, signer, flag)
  }

  function ApplyWorld(s: System, i: WorldIx): Result<System> {
    match i
    case Tick(now) => Advance(s, now)
    case Send(owner, from, to, units, credited) => SendTokens(s, owner, from, to, units, credited)
    case Issue(to, units) => IssueTokens(s, to, units)
    case Spend(owner, from, units) => SpendTokens(s, owner, from, units)
  }

  function Apply(s: System, i: Instruction): Result<System> {
    match i
    case ToController(c) => ApplyController(s, c)
    case ToOracle(o) => ApplyOracle(s, o)
    case ToSettler(b) => ApplySettler(s, b)
    case Outside(w) => ApplyWorld(s, w)
  }

  /** Steps are atomic: an error rolls everything back. */
  function Step(s: System, i: Instruction): System {
    match Apply(s, i)
    case Ok(t) => t
    case Err(_) => s
  }

  function Run(s: System, steps: seq<Instruction>): System {
    if steps == [] then s else Step(Run(s, steps[..|steps| - 1]), steps[|steps| - 1])
  }

  /** The programs have just been initialised and nothing has happened. */
  ghost predicate Initial(s: System) {
    && s.balances == NOTHING && s.supply == map[] && s.counters == map[] && s.vaults == map[] && s.series == map[]
    && s.feeds == map[] && s.prices == map[] && s.makers == map[] && s.fills == map[] && s.custody == map[]
    && s.attributions == map[] && s.log == Genesis
    && s.settler.feeBps <= MAX_FEE_BPS && s.settler.escapeDelay >= MIN_ESCAPE_DELAY && s.oracle.thresholdBps > 0
  }
}
