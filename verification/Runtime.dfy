/** The handlers behind one entry point that rolls back what a failed one did. */
module Runtime {
  import opened Wrappers
  import opened Ints
  import opened Model
  import opened Store
  import opened Machine
  import opened Invariants
  import opened Progress
  import Tokens
  import Controller
  import Settler
  import Oracle
  import ControllerProgram
  import OracleProgram
  import SettlerProgram

  method DispatchController(db: Accounts, i: ControllerIx) returns (r: Result<()>)
    modifies db
    ensures Matches(ApplyController(old(db.View()), i), r, db.View())
  {
    hide Controller.InitializeCounter, Controller.OpenVault, Controller.Deposit, Controller.Mint, Controller.Settle,
         Controller.Redeem, Controller.EmergencyWithdrawVault, Controller.CreateSeries, Controller.SetExpiryPrice,
         Controller.SetPartialPauser, Controller.SetPartiallyPaused, Controller.SetFullyPaused;
    match i
    case InitializeCounter(owner) => r := ControllerProgram.InitializeCounter(db, Wallet(owner));
    case OpenVault(owner, mint, beneficiary) => r := ControllerProgram.OpenVault(db, Wallet(owner), mint, beneficiary);
    case DepositCollateral(owner, id, from, pool, amount, credited) =>
      r := ControllerProgram.DepositCollateral(db, Wallet(owner), id, from, pool, amount, credited);
    case MintOtoken(owner, id, otoken, to, amount) => r := ControllerProgram.MintOtoken(db, Wallet(owner), id, otoken, to, amount);
    case SettleVault(signer, k, pool, to, credited) =>
      r := ControllerProgram.SettleVault(db, signer, k.owner, k.id, pool, to, credited);
    case Redeem(redeemer, otoken, from, to, pool, amount, credited) =>
      r := ControllerProgram.Redeem(db, Wallet(redeemer), otoken, from, to, pool, amount, credited);
    case EmergencyWithdrawVault(owner, id, pool, to, credited) =>
      r := ControllerProgram.EmergencyWithdrawVault(db, Wallet(owner), id, pool, to, credited);
    case CreateOTokenInfo(signer, isOperator, otoken, info) =>
      r := ControllerProgram.CreateOTokenInfo(db, signer, isOperator, otoken, info);
    case SetSeriesPrice(signer, otoken) => r := ControllerProgram.SetExpiryPrice(db, signer, otoken);
    case SetPartialPauser(signer, pauser) => r := ControllerProgram.SetPartialPauser(db, signer, pauser);
    case SetPartiallyPaused(signer, flag) => r := ControllerProgram.SetPartiallyPaused(db, signer, flag);
    case SetFullyPaused(signer, flag) => r := ControllerProgram.SetFullyPaused(db, signer, flag);
  }

  method DispatchOracle(db: Accounts, i: OracleIx) returns (r: Result<()>)
    modifies db`prices, db`feeds, db`oracle
    ensures Matches(ApplyOracle(old(db.View()), i), r, db.View())
  {
    hide Oracle.SetExpiryPrice, Oracle.RegisterFeed, Oracle.SetFeedActive, Oracle.SetThreshold, Oracle.SetLimits,
         Oracle.DeregisterFeed, Oracle.SetOperator, Oracle.TransferOwnership, Oracle.AcceptOwnership;
    match i
    case FinalizePrice(signer, underlying, expiry, price, account) =>
      r := OracleProgram.SetExpiryPrice(db, signer, underlying, expiry, price, account);
    case RegisterFeed(signer, underlying, feedId) => r := OracleProgram.RegisterFeed(db, signer, underlying, feedId);
    case SetFeedActive(signer, underlying, flag) => r := OracleProgram.SetFeedActive(db, signer, underlying, flag);
    case DeregisterFeed(signer, underlying) => r := OracleProgram.DeregisterFeed(db, signer, underlying);
    case SetOracleOperator(signer, operator) => r := OracleProgram.SetOperator(db, signer, operator);
    case TransferOwnership(signer, newAdmin) => r := OracleProgram.TransferOwnership(db, signer, newAdmin);
    case AcceptOwnership(signer) => r := OracleProgram.AcceptOwnership(db, signer);
    case SetThreshold(signer, bps) => r := OracleProgram.SetThreshold(db, signer, bps);
    case SetLimits(signer, maxStaleness, bps) => r := OracleProgram.SetLimits(db, signer, maxStaleness, bps);
  }

  method InitVaultCounter(db: Accounts, signer: Key) returns (r: Result<()>)
    modifies db`counters
    ensures Matches(ApplySettler(old(db.View()), SettlerIx.InitVaultCounter(signer)), r, db.View())
  {
    hide Controller.InitializeCounter;
    :- Need(signer == db.settler.owner, ConstraintViolated);
    r := ControllerProgram.InitializeCounter(db, SettlerPda);
  }

  /** The owner's settings. */
  method DispatchSetting(db: Accounts, i: SettlerIx) returns (r: Result<()>)
    requires i.SetProtocolFee? || i.SetEscapeDelay? || i.SetOperator? || i.SetJupiterProgram? || i.SetTreasury? || i.Pause?
    modifies db`settler
    ensures Matches(ApplySettler(old(db.View()), i), r, db.View())
  {
    hide Settler.WhitelistMaker, Settler.IncrementNonce, Settler.CancelQuote, Settler.ExecuteOrder, Settler.SettleVault,
         Settler.EmergencyWithdraw, Settler.RedeemForMM, Settler.MMSelfRedeem, Settler.PhysicalRedeem, Settler.SetProtocolFee,
         Settler.SetEscapeDelay, Settler.SetTreasury, Settler.SetPaused, Settler.SetOperator, Settler.SetJupiterProgram,
         Controller.InitializeCounter, Books;
    match i
    case SetProtocolFee(signer, bps) => r := SettlerProgram.SetProtocolFee(db, signer, bps);
    case SetEscapeDelay(signer, delay) => r := SettlerProgram.SetEscapeDelay(db, signer, delay);
    case SetOperator(signer, operator) => r := SettlerProgram.SetOperator(db, signer, operator);
    case SetJupiterProgram(signer, jupiter) => r := SettlerProgram.SetJupiterProgram(db, signer, jupiter);
    case SetTreasury(signer, treasury) => r := SettlerProgram.SetTreasury(db, signer, treasury);
    case Pause(signer, flag) => r := SettlerProgram.Pause(db, signer, flag);
  }

  method DispatchSettler(db: Accounts, i: SettlerIx) returns (r: Result<()>)
    modifies db
    ensures Matches(ApplySettler(old(db.View()), i), r, db.View())
  {
    hide Settler.WhitelistMaker, Settler.IncrementNonce, Settler.CancelQuote, Settler.ExecuteOrder, Settler.SettleVault,
         Settler.EmergencyWithdraw, Settler.RedeemForMM, Settler.MMSelfRedeem, Settler.PhysicalRedeem, Controller.InitializeCounter, Books;
    match i
    case InitVaultCounter(signer) => r := InitVaultCounter(db, signer);
    case WhitelistMaker(signer, maker, flag) => r := SettlerProgram.WhitelistMaker(db, signer, maker, flag);
    case IncrementMakerNonce(maker) => r := SettlerProgram.IncrementMakerNonce(db, maker);
    case CancelQuote(maker, quoteId) => r := SettlerProgram.CancelQuote(db, maker, quoteId);
    case ExecuteOrder(order) => r := SettlerProgram.ExecuteOrder(db, order);
    case SettleVaultForMaker(operator, signer, k, pool, to, credited) =>
      r := SettlerProgram.SettleVault(db, operator, signer, k, pool, to, credited);
    case EmergencyWithdrawOrder(signer, k, maker, otoken, settlerOtoken, pool, to, credited) =>
      r := SettlerProgram.EmergencyWithdraw(db, signer, k, maker, otoken, settlerOtoken, pool, to, credited);
    case RedeemForMM(operator, custody, accounts, amount, credited) =>
      r := SettlerProgram.RedeemForMM(db, operator, custody, accounts, amount, credited);
    case MMSelfRedeem(maker, otoken, accounts, amount, credited) =>
      r := SettlerProgram.MMSelfRedeem(db, maker, otoken, accounts, amount, credited);
    case PhysicalRedeem(delivery) => r := SettlerProgram.PhysicalRedeem(db, delivery);
    case _ => r := DispatchSetting(db, i);
  }

  method DispatchWorld(db: Accounts, i: WorldIx) returns (r: Result<()>)
    modifies db`now, db`balances, db`supply, db`log
    ensures Matches(ApplyWorld(old(db.View()), i), r, db.View())
  {
    hide Tokens.Transfer, Tokens.MintTo, Tokens.Burn;
    match i {
      case Tick(now) =>
        :- Need(db.now <= now, Environment);
        db.now := now;
      case Send(owner, from, to, units, credited) =>
        :- Need(from.owner == Wallet(owner), TokenOwnerMismatch);
        var _ :- db.Transfer(Wallet(owner), from, to, units, credited);
        db.log := Then(db.log, OutsideCredit(PurseOf(to), credited));
      case Issue(to, units) =>
        :- Need(to.mint !in db.series, Environment);
        var _ :- db.MintTo(to.mint, to, units);
        db.log := Then(db.log, OutsideCredit(PurseOf(to), units));
      case Spend(owner, from, units) =>
        :- Need(from.owner == Wallet(owner), TokenOwnerMismatch);
        var _ :- db.Burn(Wallet(owner), from, units);
        if from.mint in db.series {
          db.log := Then(db.log, OutsideBurn(from.mint, units));
        }
    }
    return Ok(());
  }

  method Dispatch(db: Accounts, i: Instruction) returns (r: Result<()>)
    modifies db
    ensures Matches(Apply(old(db.View()), i), r, db.View())
  {
    hide ApplyController, ApplyOracle, ApplySettler, ApplyWorld;
    match i
    case ToController(c) => r := DispatchController(db, c);
    case ToOracle(o) => r := DispatchOracle(db, o);
    case ToSettler(b) => r := DispatchSettler(db, b);
    case Outside(w) => r := DispatchWorld(db, w);
  }

  /** One transaction: run the handler, keep what it did only if it succeeded. The
      accounts move as the step function says, so sound books stay sound and
      nothing that must not go back goes back. */
  method Execute(db: Accounts, i: Instruction) returns (r: Result<()>)
    modifies db
    ensures db.View() == Step(old(db.View()), i)
    ensures r.Err? ==> db.View() == old(db.View())
    ensures Books(old(db.View())) ==> Books(db.View()) && Progressed(old(db.View()), db.View())
  {
    hide Apply, Books, Progressed;
    var before := db.View();
    r := Dispatch(db, i);
    if r.Err? {
      db.Restore(before);
    }
    if Books(before) {
      StepKeeps(before, i);
      StepProgress(before, i);
    }
  }
}
