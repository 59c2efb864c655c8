/** The controller's instruction handlers, step by step on the accounts. */
module ControllerProgram {
  import opened Wrappers
  import opened Ints
  import opened Model
  import opened Store
  import opened PoolBooks
  import Controller
  import Payoff
  import Tokens

  method InitializeCounter(db: Accounts, owner: Holder) returns (r: Result<()>)
    modifies db`counters
    ensures Matches(Controller.InitializeCounter(old(db.View()), owner), r, db.View())
    ensures Inv(old(db.View())) && r.Ok? ==> Inv(db.View())
  {
    hide Inv;
    ghost var s := db.View();
    var free := owner !in db.counters;
    :- Need(free, AccountInUse);
    db.counters := db.counters[owner := 0];
    if Inv(s) {
      InitializeCounterKeeps(s, owner);
    }
    return Ok(());
  }

  lemma OpenVaultInv(s: System, owner: Holder, collateralMint: Key, beneficiary: Holder)
    ensures Inv(s) && Controller.OpenVault(s, owner, collateralMint, beneficiary).Ok?
        ==> Inv(Controller.OpenVault(s, owner, collateralMint, beneficiary).value)
  {
    hide Inv, Controller.OpenVault;
    if Inv(s) && Controller.OpenVault(s, owner, collateralMint, beneficiary).Ok? {
      OpenVaultKeeps(s, owner, collateralMint, beneficiary);
    }
  }

  method OpenVault(db: Accounts, owner: Holder, collateralMint: Key, beneficiary: Holder) returns (r: Result<()>)
    modifies db`vaults, db`counters, db`log
    ensures Matches(Controller.OpenVault(old(db.View()), owner, collateralMint, beneficiary), r, db.View())
    ensures Inv(old(db.View())) && r.Ok? ==> Inv(db.View())
  {
    hide Inv;
    ghost var s := db.View();
    OpenVaultInv(s, owner, collateralMint, beneficiary);
    var known := owner in db.counters;
    :- Need(known, AccountMissing);
    var id := db.counters[owner];
    var k := VaultKey(owner, id);
    :- Need(k !in db.vaults, AccountInUse);
    :- Need(beneficiary != NOBODY, ZeroAddress);
    :- Need(!db.config.fullyPaused, SystemFullyPaused);
    :- Need(!db.config.partiallyPaused, SystemPartiallyPaused);
    :- Need(id + 1 <= U64_MAX, MathOverflow);
    db.vaults := db.vaults[k := Vault(collateralMint, 0, 0, 0, false, beneficiary)];
    db.counters := db.counters[owner := id + 1];
    db.log := Then(db.log, VaultOpened(k));
    return Ok(());
  }

  lemma DepositInv(s: System, owner: Holder, id: nat, from: Account, pool: Account, amount: u64, credited: nat)
    ensures !from.owner.PoolAuthority? && Inv(s) && Controller.Deposit(s, owner, id, from, pool, amount, credited).Ok?
        ==> Inv(Controller.Deposit(s, owner, id, from, pool, amount, credited).value)
  {
    hide Inv, Controller.Deposit;
    if !from.owner.PoolAuthority? && Inv(s) && Controller.Deposit(s, owner, id, from, pool, amount, credited).Ok? {
      DepositKeeps(s, owner, id, from, pool, amount, credited);
    }
  }

  method DepositCollateral(db: Accounts, owner: Holder, id: nat, from: Account, pool: Account, amount: u64, credited: nat)
    returns (r: Result<()>)
    modifies db`vaults, db`balances, db`log
    ensures Matches(Controller.Deposit(old(db.View()), owner, id, from, pool, amount, credited), r, db.View())
    ensures !from.owner.PoolAuthority? && Inv(old(db.View())) && r.Ok? ==> Inv(db.View())
  {
    hide Inv, Tokens.Transfer;
    ghost var s := db.View();
    var k := VaultKey(owner, id);
    :- Need(k in db.vaults, AccountMissing);
    var v := db.vaults[k];
    :- Controller.CheckPool(pool, v.collateralMint);
    :- Need(!db.config.fullyPaused, SystemFullyPaused);
    :- Need(!db.config.partiallyPaused, SystemPartiallyPaused);
    :- Need(amount > 0, ZeroAmount);
    :- Need(!v.settled, VaultSettled);
    :- Need(from.mint == v.collateralMint, CollateralMismatch);
    var balanceBefore := db.Funds(pool);
    var _ :- db.Transfer(owner, from, pool, amount, credited);
    :- Need(balanceBefore <= db.Funds(pool), MathOverflow);
    var actualReceived := db.Funds(pool) - balanceBefore;
    :- Need(actualReceived == amount, CollateralCreditMismatch);
    :- Need(v.collateral + amount <= U64_MAX, MathOverflow);
    db.vaults := db.vaults[k := v.(collateral := v.collateral + amount)];
    db.log := Then(db.log, CollateralDeposited(k, amount));
    DepositInv(s, owner, id, from, pool, amount, credited);
    return Ok(());
  }

  method MintOtoken(db: Accounts, owner: Holder, id: nat, otoken: Key, to: Account, amount: u64) returns (r: Result<()>)
    modifies db`vaults, db`balances, db`supply, db`log
    ensures Matches(Controller.Mint(old(db.View()), owner, id, otoken, to, amount), r, db.View())
    ensures (owner == SettlerPda ==> PurseOf(to) == CustodyPurse(otoken)) && Inv(old(db.View())) && r.Ok? ==> Inv(db.View())
  {
    hide Payoff.GetRequiredCollateral, Inv;
    ghost var s := db.View();
    var k := VaultKey(owner, id);
    :- Need(k in db.vaults, AccountMissing);
    :- Need(otoken in db.series, AccountMissing);
    var v, o := db.vaults[k], db.series[otoken];
    :- Need(o.collateralMint == v.collateralMint, CollateralMismatch);
    :- Need(to.mint == otoken, OtokenMismatch);
    :- Need(!db.config.fullyPaused, SystemFullyPaused);
    :- Need(!db.config.partiallyPaused, SystemPartiallyPaused);
    :- Need(amount > 0, ZeroAmount);
    :- Need(db.now < o.expiry, OptionExpired);
    :- Need(!v.settled, VaultSettled);
    if v.otoken == 0 {
      v := v.(otoken := otoken);
    } else {
      :- Need(v.otoken == otoken, OtokenMismatch);
    }
    :- Need(v.short + amount <= U64_MAX, MathOverflow);
    var newShort := v.short + amount;
    var required :- o.Required(newShort);
    :- Need(required <= v.collateral, InsufficientCollateral);
    var _ :- db.MintTo(otoken, to, amount);
    db.vaults := db.vaults[k := v.(short := newShort)];
    db.log := Then(db.log, OTokenMinted(k, otoken, amount, PurseOf(to)));
    if (owner == SettlerPda ==> PurseOf(to) == CustodyPurse(otoken)) && Inv(s) {
      MintKeeps(s, owner, id, otoken, to, amount);
    }
    return Ok(());
  }

  method PayOut(db: Accounts, pool: Account, to: Account, amount: nat, credited: nat) returns (r: Result<()>)
    modifies db`balances
    ensures Matches(Controller.PayOut(old(db.View()), pool, to, amount, credited), r, db.View())
  {
    if amount > 0 {
      r := db.Transfer(pool.owner, pool, to, amount, credited);
    } else {
      r := Ok(());
    }
  }

  method SettleVault(db: Accounts, signer: Key, owner: Holder, id: nat, pool: Account, to: Account, credited: nat)
    returns (r: Result<()>)
    modifies db`vaults, db`balances, db`log
    ensures Matches(Controller.Settle(old(db.View()), signer, owner, id, pool, to, credited), r, db.View())
    ensures Inv(old(db.View())) && r.Ok? ==> Inv(db.View())
  {
    hide Payoff.GetPayout, Controller.PayOut, Inv;
    ghost var s := db.View();
    :- Need(signer == db.config.admin, ConstraintViolated);
    var k := VaultKey(owner, id);
    :- Need(k in db.vaults, AccountMissing);
    var v := db.vaults[k];
    :- Need(v.otoken in db.series, AccountMissing);
    var o := db.series[v.otoken];
    :- Controller.CheckPool(pool, v.collateralMint);
    :- Need(to.owner == v.beneficiary, Unauthorized);
    :- Need(to.mint == v.collateralMint, CollateralMismatch);
    :- Need(!db.config.fullyPaused, SystemFullyPaused);
    :- Need(!v.settled, VaultSettled);
    :- Need(v.short > 0, EmptyVault);
    :- Need(db.now >= o.expiry, NotExpired);
    :- Need(o.price > 0, ExpiryPriceNotSet);
    var payout :- o.Payout(v.short);
    :- Need(payout <= v.collateral, MathOverflow);
    var returned := v.collateral - payout;
    var _ :- PayOut(db, pool, to, returned, credited);
    db.vaults := db.vaults[k := v.(settled := true)];
    db.log := Then(db.log, Settled(k, returned, if returned > 0 then credited else 0, PurseOf(to)));
    if Inv(s) {
      SettleKeeps(s, signer, owner, id, pool, to, credited);
    }
    return Ok(());
  }

  method Redeem(db: Accounts, redeemer: Holder, otoken: Key, from: Account, to: Account, pool: Account, amount: u64, credited: nat)
    returns (r: Result<()>)
    modifies db`balances, db`supply, db`log
    ensures Matches(Controller.Redeem(old(db.View()), redeemer, otoken, from, to, pool, amount, credited), r, db.View())
    ensures !redeemer.PoolAuthority? && Inv(old(db.View())) && r.Ok? ==> Inv(db.View())
  {
    hide Inv;
    ghost var s := db.View();
    var known := otoken in db.series;
    :- Need(known, AccountMissing);
    var o := db.series[otoken];
    :- Need(from.mint == otoken, ConstraintViolated);
    :- Need(from.owner == redeemer, Unauthorized);
    :- Need(to.mint == o.collateralMint, CollateralMismatch);
    :- Need(to.owner == redeemer, Unauthorized);
    :- Controller.CheckPool(pool, o.collateralMint);
    :- Need(!db.config.fullyPaused, SystemFullyPaused);
    :- Need(amount > 0, ZeroAmount);
    :- Need(db.now >= o.expiry, NotExpired);
    :- Need(o.price > 0, ExpiryPriceNotSet);
    var payout :- o.Payout(amount);
    var _ :- db.Burn(redeemer, from, amount);
    var _ :- PayOut(db, pool, to, payout, credited);
    db.log := Then(db.log, Redeemed(otoken, amount, payout));
    if !redeemer.PoolAuthority? && Inv(s) {
      RedeemKeeps(s, redeemer, otoken, from, to, pool, amount, credited);
    }
    return Ok(());
  }

  method EmergencyWithdrawVault(db: Accounts, owner: Holder, id: nat, pool: Account, to: Account, credited: nat)
    returns (r: Result<()>)
    modifies db`vaults, db`balances, db`log
    ensures Matches(Controller.EmergencyWithdrawVault(old(db.View()), owner, id, pool, to, credited), r, db.View())
    ensures Inv(old(db.View())) && r.Ok? ==> Inv(db.View())
  {
    hide Inv;
    ghost var s := db.View();
    var k := VaultKey(owner, id);
    :- Need(k in db.vaults, AccountMissing);
    var v := db.vaults[k];
    :- Controller.CheckPool(pool, v.collateralMint);
    :- Need(to.owner == v.beneficiary, Unauthorized);
    :- Need(to.mint == v.collateralMint, CollateralMismatch);
    :- Need(db.config.fullyPaused, NotFullyPaused);
    :- Need(!v.settled, VaultSettled);
    db.vaults := db.vaults[k := v.(settled := true)];
    var _ :- PayOut(db, pool, to, v.collateral, credited);
    db.log := Then(db.log, Withdrawn(k, v.collateral, if v.collateral > 0 then credited else 0, PurseOf(to)));
    if Inv(s) {
      EmergencyKeeps(s, owner, id, pool, to, credited);
    }
    return Ok(());
  }

  method CreateOTokenInfo(db: Accounts, signer: Key, isOperator: bool, otoken: Key, o: Series) returns (r: Result<()>)
    modifies db`series
    ensures Matches(Controller.CreateSeries(old(db.View()), signer, isOperator, otoken, o), r, db.View())
    ensures Inv(old(db.View())) && r.Ok? ==> Inv(db.View())
  {
    hide Inv;
    ghost var s := db.View();
    var mints := {o.collateralMint, o.underlying, o.strikeAsset};
    :- Need(otoken != 0 && db.Supply(otoken) == 0 && otoken !in mints, Environment);
    :- Need(otoken !in db.series, AccountInUse);
    :- Need(signer == db.config.admin || isOperator, Unauthorized);
    :- Need(o.strike > 0, ZeroAmount);
    :- Need(o.decimals <= 18, InvalidDecimals);
    db.series := db.series[otoken := o.(price := 0)];
    if Inv(s) {
      CreateSeriesKeeps(s, signer, isOperator, otoken, o);
    }
    return Ok(());
  }

  method SetExpiryPrice(db: Accounts, signer: Key, otoken: Key) returns (r: Result<()>)
    modifies db`series
    ensures Matches(Controller.SetExpiryPrice(old(db.View()), signer, otoken), r, db.View())
    ensures Inv(old(db.View())) && r.Ok? ==> Inv(db.View())
  {
    hide Inv;
    ghost var s := db.View();
    var config := db.config;
    :- Need(signer == config.admin, ConstraintViolated);
    :- Need(otoken in db.series, AccountMissing);
    var o := db.series[otoken];
    var p := PriceKey(o.underlying, o.expiry);
    :- Need(p in db.prices, AccountMissing);
    :- Need(db.prices[p] > 0, ZeroAmount);
    :- Need(db.now >= o.expiry, NotExpired);
    :- Need(o.price == 0, ExpiryPriceAlreadySet);
    db.series := db.series[otoken := o.(price := db.prices[p])];
    if Inv(s) {
      SetExpiryPriceKeeps(s, signer, otoken);
    }
    return Ok(());
  }

  method SetPartialPauser(db: Accounts, signer: Key, pauser: Key) returns (r: Result<()>)
    modifies db`config
    ensures Matches(Controller.SetPartialPauser(old(db.View()), signer, pauser), r, db.View())
  {
    var config := db.config;
    :- Need(signer == config.admin, ConstraintViolated);
    :- Need(pauser != 0, ZeroAddress);
    db.config := config.(partialPauser := pauser);
    return Ok(());
  }

  method SetPartiallyPaused(db: Accounts, signer: Key, paused: bool) returns (r: Result<()>)
    modifies db`config
    ensures Matches(Controller.SetPartiallyPaused(old(db.View()), signer, paused), r, db.View())
  {
    var config := db.config;
    :- Need(signer == config.admin || signer == config.partialPauser, Unauthorized);
    db.config := config.(partiallyPaused := paused);
    return Ok(());
  }

  method SetFullyPaused(db: Accounts, signer: Key, paused: bool) returns (r: Result<()>)
    modifies db`config
    ensures Matches(Controller.SetFullyPaused(old(db.View()), signer, paused), r, db.View())
  {
    var config := db.config;
    :- Need(signer == config.admin, ConstraintViolated);
    db.config := config.(fullyPaused := paused);
    return Ok(());
  }
}
