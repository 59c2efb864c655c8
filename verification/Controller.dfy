/** What each controller instruction does to the accounts, or why it aborts. */
module Controller {
  import opened Wrappers
  import opened Ints
  import opened Model
  import opened Tokens

  /** `initialize_counter`. */
  function InitializeCounter(s: System, owner: Holder): Result<System> {
    var free := owner !in s.counters;
    :- Need(free, AccountInUse);
    Ok(s.(counters := s.counters[owner := 0]))
  }

  function OpenVault(s: System, owner: Holder, collateralMint: Key, beneficiary: Holder): Result<System> {
    var known := owner in s.counters;
    :- Need(known, AccountMissing);
    var id := s.counters[owner];
    var k := VaultKey(owner, id);
    :- Need(k !in s.vaults, AccountInUse);
    :- Need(beneficiary != NOBODY, ZeroAddress);
    :- Need(!s.config.fullyPaused, SystemFullyPaused);
    :- Need(!s.config.partiallyPaused, SystemPartiallyPaused);
    :- Need(id + 1 <= U64_MAX, MathOverflow);
    Ok(s.(vaults := s.vaults[k := Vault(collateralMint, 0, 0, 0, false, beneficiary)],
          counters := s.counters[owner := id + 1])
        .Emit(VaultOpened(k)))
  }

  /** The constraints every pool account obeys. */
  function CheckPool(pool: Account, mint: Key): Check {
    if pool.mint != mint then Fail(CollateralMismatch)
    else if pool.owner != PoolAuthority(mint) then Fail(Unauthorized)
    else Pass
  }

  /** `credited` is what the mint lets arrive; the handler measures it. */
  function Deposit(s: System, owner: Holder, id: nat, from: Account, pool: Account, amount: u64, credited: nat): Result<System> {
    var k := VaultKey(owner, id);
    :- Need(k in s.vaults, AccountMissing);
    var v := s.vaults[k];
    :- CheckPool(pool, v.collateralMint);
    :- Need(!s.config.fullyPaused, SystemFullyPaused);
    :- Need(!s.config.partiallyPaused, SystemPartiallyPaused);
    :- Need(amount > 0, ZeroAmount);
    :- Need(!v.settled, VaultSettled);
    :- Need(from.mint == v.collateralMint, CollateralMismatch);
    var t :- Transfer(s, owner, from, pool, amount, credited);
    :- Need(s.Funds(pool) <= t.Funds(pool), MathOverflow);
    :- Need(t.Funds(pool) - s.Funds(pool) == amount, CollateralCreditMismatch);
    :- Need(v.collateral + amount <= U64_MAX, MathOverflow);
    Ok(t.(vaults := t.vaults[k := v.(collateral := v.collateral + amount)])
        .Emit(CollateralDeposited(k, amount)))
  }

  function Mint(s: System, owner: Holder, id: nat, otoken: Key, to: Account, amount: u64): Result<System> {
    var k := VaultKey(owner, id);
    :- Need(k in s.vaults, AccountMissing);
    :- Need(otoken in s.series, AccountMissing);
    var v, o := s.vaults[k], s.series[otoken];
    :- Need(o.collateralMint == v.collateralMint, CollateralMismatch);
    :- Need(to.mint == otoken, OtokenMismatch);
    :- Need(!s.config.fullyPaused, SystemFullyPaused);
    :- Need(!s.config.partiallyPaused, SystemPartiallyPaused);
    :- Need(amount > 0, ZeroAmount);
    :- Need(s.now < o.expiry, OptionExpired);
    :- Need(!v.settled, VaultSettled);
    :- Need(v.otoken == 0 || v.otoken == otoken, OtokenMismatch);
    :- Need(v.short + amount <= U64_MAX, MathOverflow);
    var required :- o.Required(v.short + amount);
    :- Need(required <= v.collateral, InsufficientCollateral);
    var t :- MintTo(s, otoken, to, amount);
    Ok(t.(vaults := t.vaults[k := v.(otoken := otoken, short := v.short + amount)])
        .Emit(OTokenMinted(k, otoken, amount, PurseOf(to))))
  }

  function Settle(s: System, signer: Key, owner: Holder, id: nat, pool: Account, to: Account, credited: nat): Result<System> {
    var config := s.config;
    :- Need(signer == config.admin, ConstraintViolated);
    var k := VaultKey(owner, id);
    :- Need(k in s.vaults, AccountMissing);
    var v := s.vaults[k];
    :- Need(v.otoken in s.series, AccountMissing);
    var o := s.series[v.otoken];
    :- CheckPool(pool, v.collateralMint);
    :- Need(to.owner == v.beneficiary, Unauthorized);
    :- Need(to.mint == v.collateralMint, CollateralMismatch);
    :- Need(!config.fullyPaused, SystemFullyPaused);
    :- Need(!v.settled, VaultSettled);
    :- Need(v.short > 0, EmptyVault);
    :- Need(s.now >= o.expiry, NotExpired);
    :- Need(o.price > 0, ExpiryPriceNotSet);
    var payout :- o.Payout(v.short);
    :- Need(payout <= v.collateral, MathOverflow);
    var returned := v.collateral - payout;
    var t :- PayOut(s, pool, to, returned, credited);
    Ok(t.(vaults := t.vaults[k := v.(settled := true)])
        .Emit(Settled(k, returned, if returned > 0 then credited else 0, PurseOf(to))))
  }

  /** Pool transfers skip the token program when there is nothing to move. */
  function PayOut(s: System, pool: Account, to: Account, amount: nat, credited: nat): Result<System> {
    if amount > 0 then Transfer(s, pool.owner, pool, to, amount, credited) else Ok(s)
  }

  function Redeem(s: System, redeemer: Holder, otoken: Key, from: Account, to: Account, pool: Account, amount: u64, credited: nat): Result<System> {
    var known := otoken in s.series;
    :- Need(known, AccountMissing);
    var o := s.series[otoken];
    :- Need(from.mint == otoken, ConstraintViolated);
    :- Need(from.owner == redeemer, Unauthorized);
    :- Need(to.mint == o.collateralMint, CollateralMismatch);
    :- Need(to.owner == redeemer, Unauthorized);
    :- CheckPool(pool, o.collateralMint);
    :- Need(!s.config.fullyPaused, SystemFullyPaused);
    :- Need(amount > 0, ZeroAmount);
    :- Need(s.now >= o.expiry, NotExpired);
    :- Need(o.price > 0, ExpiryPriceNotSet);
    var payout :- o.Payout(amount);
    var burned :- Burn(s, redeemer, from, amount);
    var t :- PayOut(burned, pool, to, payout, credited);
    Ok(t.Emit(Redeemed(otoken, amount, payout)))
  }

  function EmergencyWithdrawVault(s: System, owner: Holder, id: nat, pool: Account, to: Account, credited: nat): Result<System> {
    var k := VaultKey(owner, id);
    :- Need(k in s.vaults, AccountMissing);
    var v := s.vaults[k];
    :- CheckPool(pool, v.collateralMint);
    :- Need(to.owner == v.beneficiary, Unauthorized);
    :- Need(to.mint == v.collateralMint, CollateralMismatch);
    :- Need(s.config.fullyPaused, NotFullyPaused);
    :- Need(!v.settled, VaultSettled);
    var marked := s.(vaults := s.vaults[k := v.(settled := true)]);
    var t :- PayOut(marked, pool, to, v.collateral, credited);
    Ok(t.Emit(Withdrawn(k, v.collateral, if v.collateral > 0 then credited else 0, PurseOf(to))))
  }

  /** `create_otoken_info`: `o` is what the factory recorded, `operator` whether
      the factory names the signer as its operator. The factory has only just
      created the mint, with the controller as mint authority, at an address
      derived from the three assets, so it is none of them. */
  function CreateSeries(s: System, signer: Key, operator: bool, otoken: Key, o: Series): Result<System> {
    var mints := {o.collateralMint, o.underlying, o.strikeAsset};
    :- Need(otoken != 0 && s.Supply(otoken) == 0 && otoken !in mints, Environment);
    :- Need(otoken !in s.series, AccountInUse);
    :- Need(signer == s.config.admin || operator, Unauthorized);
    :- Need(o.strike > 0, ZeroAmount);
    :- Need(o.decimals <= 18, InvalidDecimals);
    Ok(s.(series := s.series[otoken := o.(price := 0)]))
  }

  function SetExpiryPrice(s: System, signer: Key, otoken: Key): Result<System> {
    var config := s.config;
    :- Need(signer == config.admin, ConstraintViolated);
    :- Need(otoken in s.series, AccountMissing);
    var o := s.series[otoken];
    var p := PriceKey(o.underlying, o.expiry);
    :- Need(p in s.prices, AccountMissing);
    :- Need(s.prices[p] > 0, ZeroAmount);
    :- Need(s.now >= o.expiry, NotExpired);
    :- Need(o.price == 0, ExpiryPriceAlreadySet);
    Ok(s.(series := s.series[otoken := o.(price := s.prices[p])]))
  }

  function SetPartialPauser(s: System, signer: Key, pauser: Key): Result<System> {
    var config := s.config;
    :- Need(signer == config.admin, ConstraintViolated);
    :- Need(pauser != 0, ZeroAddress);
    Ok(s.(config := config.(partialPauser := pauser)))
  }

  function SetPartiallyPaused(s: System, signer: Key, paused: bool): Result<System> {
    var config := s.config;
    :- Need(signer == config.admin || signer == config.partialPauser, Unauthorized);
    Ok(s.(config := config.(partiallyPaused := paused)))
  }

  function SetFullyPaused(s: System, signer: Key, paused: bool): Result<System> {
    var config := s.config;
    :- Need(signer == config.admin, ConstraintViolated);
    Ok(s.(config := config.(fullyPaused := paused)))
  }
}
