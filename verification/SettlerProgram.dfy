/** The settler's instruction handlers, step by step on the accounts. Calls into
    the controller are calls of its handlers on the same accounts. */
module SettlerProgram {
  import opened Wrappers
  import opened Ints
  import opened Bytes
  import opened Payoff
  import opened Model
  import opened Store
  import opened Quotes
  import opened Settler
  import Controller
  import ControllerProgram
  import Tokens
  import opened OrderSteps
  import opened CustodySteps
  import opened DeliverySteps
  import opened Invariants
  import opened Machine

  /** What the settler's instructions do to sound books. */
  lemma KeepsBooks(s: System, i: SettlerIx)
    ensures Books(s) && ApplySettler(s, i).Ok? ==> Books(ApplySettler(s, i).value)
  {
    hide Books, ApplySettler;
    if Books(s) {
      SettlerStep(s, i);
    }
  }

  /** What the five instructions that move tokens through the settler do in full. */
  lemma Effects(s: System, i: SettlerIx)
    ensures i.ExecuteOrder? && ApplySettler(s, i).Ok?
        ==> exists split ::
              && Charged(i.order.amount, i.order.bidPrice, s.settler.feeBps, split)
              && Executed(s, ApplySettler(s, i).value, i.order, split.fee) && Paid(s, ApplySettler(s, i).value, i.order, split)
    ensures Books(s) && i.RedeemForMM? && ApplySettler(s, i).Ok?
        ==> CashedOut(s, ApplySettler(s, i).value, i.custody, i.amount, i.credited)
    ensures Books(s) && i.MMSelfRedeem? && ApplySettler(s, i).Ok?
        ==> CashedOut(s, ApplySettler(s, i).value, CustodyKey(i.maker, i.otoken), i.amount, i.credited)
    ensures Books(s) && i.PhysicalRedeem? && ApplySettler(s, i).Ok? ==> Delivered(s, ApplySettler(s, i).value, i.delivery)
    ensures i.EmergencyWithdrawOrder? && ApplySettler(s, i).Ok? ==> Exited(s, ApplySettler(s, i).value, i.vault)
  {
    hide Books, Executed, Paid, Charged, CashedOut, Delivered, Exited, ComputePremiumSplit, Settler.WhitelistMaker, Settler.IncrementNonce,
         Settler.CancelQuote, Settler.ExecuteOrder, Settler.SettleVault, Settler.EmergencyWithdraw, Settler.RedeemForMM,
         Settler.MMSelfRedeem, Settler.PhysicalRedeem, Settler.SetProtocolFee, Settler.SetEscapeDelay, Settler.SetTreasury,
         Settler.SetPaused, Settler.SetOperator, Settler.SetJupiterProgram, Controller.InitializeCounter;
    if Books(s) {
      BooksBasics(s);
    }
    if ApplySettler(s, i).Ok? {
      match i
      case ExecuteOrder(a) => ExecuteOrderEffect(s, a);
      case EmergencyWithdrawOrder(signer, k, maker, otoken, settlerOtoken, pool, to, credited) =>
        ExitEffect(s, signer, k, maker, otoken, settlerOtoken, pool, to, credited);
      case RedeemForMM(operator, c, accounts, amount, credited) =>
        if Books(s) {
          CashRoutesPayExactly(s, operator, c, accounts, amount, credited);
        }
      case MMSelfRedeem(maker, otoken, accounts, amount, credited) =>
        if Books(s) {
          CashRoutesPayExactly(s, 0, CustodyKey(maker, otoken), accounts, amount, credited);
        }
      case PhysicalRedeem(d) =>
        if Books(s) {
          PhysicalRedeemEffect(s, d);
        }
      case _ =>
    }
  }

  // ---------------------------------------------------------------- quotes

  method WhitelistMaker(db: Accounts, signer: Key, maker: Key, whitelisted: bool) returns (r: Result<()>)
    modifies db`makers
    ensures Matches(Settler.WhitelistMaker(old(db.View()), signer, maker, whitelisted), r, db.View())
    ensures Books(old(db.View())) && r.Ok? ==> Books(db.View())
    ensures r.Ok? ==> signer == db.settler.owner && maker in db.makers && db.makers[maker].whitelisted == whitelisted
  {
    hide Books;
    ghost var s := db.View();
    var config := db.settler;
    :- Need(signer == config.owner, ConstraintViolated);
    var state := MakerState(0, false);
    if maker in db.makers {
      state := db.makers[maker];
    }
    db.makers := db.makers[maker := state.(whitelisted := whitelisted)];
    KeepsBooks(s, SettlerIx.WhitelistMaker(signer, maker, whitelisted));
    return Ok(());
  }

  method IncrementMakerNonce(db: Accounts, maker: Key) returns (r: Result<()>)
    modifies db`makers
    ensures Matches(Settler.IncrementNonce(old(db.View()), maker), r, db.View())
    ensures Books(old(db.View())) && r.Ok? ==> Books(db.View())
    ensures r.Ok? ==> db.makers[maker].nonce == old(db.makers)[maker].nonce + 1
  {
    hide Books;
    ghost var s := db.View();
    var known := maker in db.makers;
    :- Need(known, AccountMissing);
    var state := db.makers[maker];
    :- Need(state.nonce + 1 <= U64_MAX, MathOverflow);
    db.makers := db.makers[maker := state.(nonce := state.nonce + 1)];
    KeepsBooks(s, SettlerIx.IncrementMakerNonce(maker));
    return Ok(());
  }

  method LoadFill(db: Accounts, q: QuoteKey) returns (fill: QuoteFill)
    ensures fill == FillOf(db.View(), q)
  {
    fill := QuoteFill(0, false);
    if q in db.fills {
      fill := db.fills[q];
    }
  }

  method CancelQuote(db: Accounts, maker: Key, id: u64) returns (r: Result<()>)
    modifies db`fills
    ensures Matches(Settler.CancelQuote(old(db.View()), maker, id), r, db.View())
    ensures Books(old(db.View())) && r.Ok? ==> Books(db.View())
    ensures r.Ok? ==>
      var q := QuoteKey(maker, old(db.makers)[maker].nonce, id);
      q in db.fills && db.fills[q].cancelled && db.fills == old(db.fills)[q := db.fills[q]]
  {
    hide Books;
    ghost var s := db.View();
    var known := maker in db.makers;
    :- Need(known, AccountMissing);
    var q := QuoteKey(maker, db.makers[maker].nonce, id);
    var fill := LoadFill(db, q);
    :- Need(!fill.cancelled, Error.QuoteAlreadyCancelled);
    db.fills := db.fills[q := fill.(cancelled := true)];
    KeepsBooks(s, SettlerIx.CancelQuote(maker, id));
    return Ok(());
  }

  // ---------------------------------------------------------------- execute_order

  /** Everything checked before the quote is charged, in the order of the code. */
  method ValidateOrder(db: Accounts, a: Order) returns (r: Result<()>)
    ensures r == if CheckOrder(db.View(), a).Pass? then Ok(()) else Err(CheckOrder(db.View(), a).error)
  {
    var config := db.settler;
    :- Need(a.maker in db.makers, AccountMissing);
    :- Need(a.amount > 0, ZeroAmount);
    :- Need(a.amount >= MIN_EXECUTE_AMOUNT, AmountTooSmall);
    :- Need(a.bidPrice > 0, ZeroAmount);
    :- Need(!config.paused, Paused);
    :- Need(a.accounts.userCollateral.owner == Wallet(a.user), Unauthorized);
    :- Need(a.accounts.pool.mint == a.collateralMint, InvalidCustodyAccount);
    :- Need(a.accounts.pool.owner == PoolAuthority(a.collateralMint), Unauthorized);
    :- Need(a.accounts.settlerOtoken.mint == a.otoken, InvalidCustodyAccount);
    :- Need(a.accounts.settlerOtoken.owner == SettlerPda, InvalidCustodyAccount);
    :- Need(a.accounts.mmPremium.owner == Wallet(a.maker), InvalidCustodyAccount);
    :- Need(a.accounts.mmPremium.mint == a.premiumMint, InvalidCustodyAccount);
    :- Need(a.accounts.userPremium.owner == Wallet(a.user), Unauthorized);
    :- Need(a.accounts.userPremium.mint == a.premiumMint, InvalidCustodyAccount);
    :- Need(a.accounts.treasury.owner == config.treasury, InvalidTreasury);
    :- Need(a.accounts.treasury.mint == a.premiumMint, InvalidTreasury);
    :- ValidateMaker(db.makers[a.maker], a.nonce);
    var message := BuildQuoteMessage(a.Quote());
    var _ :- ScanForSignature(a.ixs, a.current, ToLE(a.maker, 32), message);
    :- Need(db.now <= a.deadline, Error.QuoteExpired);
    return Ok(());
  }

  method WriteOption(db: Accounts, a: Order) returns (r: Result<()>)
    modifies db`vaults, db`counters, db`balances, db`supply, db`log
    ensures Matches(Settler.WriteOption(old(db.View()), a), r, db.View())
  {
    hide Controller.OpenVault, Controller.Deposit, Controller.Mint;
    ghost var s := db.View();
    if Controller.OpenVault(s, SettlerPda, a.collateralMint, Wallet(a.user)).Ok? {
      NeedsCounter(s, a);
    }
    var id := if SettlerPda in db.counters then db.counters[SettlerPda] else 0;
    var _ :- ControllerProgram.OpenVault(db, SettlerPda, a.collateralMint, Wallet(a.user));
    var _ :- ControllerProgram.DepositCollateral(db, SettlerPda, id, a.accounts.userCollateral, a.accounts.pool, a.collateralAmount, a.credited);
    r := ControllerProgram.MintOtoken(db, SettlerPda, id, a.otoken, a.accounts.settlerOtoken, a.amount);
  }

  lemma NeedsCounter(s: System, a: Order)
    requires Controller.OpenVault(s, SettlerPda, a.collateralMint, Wallet(a.user)).Ok?
    ensures SettlerPda in s.counters
  {
  }

  method Attribute(db: Accounts, k: VaultKey, maker: Key, otoken: Key, amount: u64) returns (r: Result<()>)
    modifies db`custody, db`attributions
    ensures Matches(Settler.Attribute(old(db.View()), k, maker, otoken, amount), r, db.View())
  {
    var c := CustodyKey(maker, otoken);
    var balance := if c in db.custody then db.custody[c] else 0;
    :- Need(balance + amount <= U64_MAX, MathOverflow);
    db.custody := db.custody[c := balance + amount];
    :- Need(k !in db.attributions, InvalidCustodyAccount);
    db.attributions := db.attributions[k := VaultMM(maker, otoken, amount)];
    return Ok(());
  }

  method PayPremium(db: Accounts, a: Order, split: Split) returns (r: Result<()>)
    modifies db`balances
    ensures Matches(Settler.PayPremium(old(db.View()), a, split), r, db.View())
  {
    hide Tokens.Transfer;
    if split.net > 0 {
      var _ :- db.Transfer(SettlerPda, a.accounts.mmPremium, a.accounts.userPremium, split.net, split.net);
    }
    if split.fee > 0 {
      var _ :- db.Transfer(SettlerPda, a.accounts.mmPremium, a.accounts.treasury, split.fee, split.fee);
    }
    return Ok(());
  }

  /** Everything after the quote has been charged. */
  method FillOrder(db: Accounts, a: Order, split: Split) returns (r: Result<()>)
    modifies db`vaults, db`counters, db`balances, db`supply, db`custody, db`attributions, db`log
    ensures Matches(Settler.FillOrder(old(db.View()), a, split), r, db.View())
  {
    hide Settler.WriteOption, Settler.Attribute, Settler.PayPremium;
    var k := VaultKey(SettlerPda, if SettlerPda in db.counters then db.counters[SettlerPda] else 0);
    var _ :- WriteOption(db, a);
    var _ :- Attribute(db, k, a.maker, a.otoken, a.amount);
    var _ :- PayPremium(db, a, split);
    db.log := Then(db.log, OrderExecuted(a.Fill(), k, a.amount, a.maxAmount, split.fee, PurseOf(a.accounts.treasury)));
    return Ok(());
  }

  method ExecuteOrder(db: Accounts, a: Order) returns (r: Result<()>)
    modifies db
    ensures Matches(Settler.ExecuteOrder(old(db.View()), a), r, db.View())
    ensures Books(old(db.View())) && r.Ok? ==> Books(db.View())
    ensures r.Ok? ==> exists split ::
      && Charged(a.amount, a.bidPrice, old(db.settler.feeBps), split)
      && Executed(old(db.View()), db.View(), a, split.fee) && Paid(old(db.View()), db.View(), a, split)
  {
    hide CheckOrder, Settler.FillOrder, ComputePremiumSplit, Books, Executed, Paid, Charged;
    ghost var s := db.View();
    var _ :- ValidateOrder(db, a);
    var fill := LoadFill(db, a.Fill());
    fill :- UpdateFill(fill, a.amount, a.maxAmount);
    db.fills := db.fills[a.Fill() := fill];
    var split :- ComputePremiumSplit(a.amount, a.bidPrice, db.settler.feeBps);
    r := FillOrder(db, a, split);
    KeepsBooks(s, SettlerIx.ExecuteOrder(a));
    Effects(s, SettlerIx.ExecuteOrder(a));
  }

  // ---------------------------------------------------------------- vaults

  method SettleVault(db: Accounts, operator: Key, signer: Key, k: VaultKey, pool: Account, to: Account, credited: nat)
    returns (r: Result<()>)
    modifies db`vaults, db`balances, db`log
    ensures Matches(Settler.SettleVault(old(db.View()), operator, signer, k.owner, k.id, pool, to, credited), r, db.View())
    ensures Books(old(db.View())) && r.Ok? ==> Books(db.View())
  {
    hide Books, Controller.Settle;
    ghost var s := db.View();
    var config := db.settler;
    :- Need(operator == config.operator, Unauthorized);
    r := ControllerProgram.SettleVault(db, signer, k.owner, k.id, pool, to, credited);
    KeepsBooks(s, SettlerIx.SettleVaultForMaker(operator, signer, k, pool, to, credited));
  }

  method ClearCustody(db: Accounts, k: VaultKey, c: CustodyKey, settlerOtoken: Account) returns (r: Result<()>)
    requires k in db.attributions && c in db.custody
    modifies db`custody, db`attributions, db`balances, db`supply
    ensures Matches(Settler.ClearCustody(old(db.View()), k, c, settlerOtoken), r, db.View())
  {
    hide Tokens.Burn;
    var mm := db.attributions[k];
    var balance := db.custody[c];
    var amount := Min(mm.remaining, balance);
    if amount > 0 {
      var _ :- db.Burn(SettlerPda, settlerOtoken, amount);
      BurnLeavesRecords(old(db.View()), settlerOtoken, amount);
    }
    db.custody := db.custody[c := balance - amount];
    db.attributions := db.attributions[k := mm.(remaining := 0)];
    return Ok(());
  }

  lemma BurnLeavesRecords(s: System, from: Account, amount: nat)
    requires Tokens.Burn(s, SettlerPda, from, amount).Ok?
    ensures var t := Tokens.Burn(s, SettlerPda, from, amount).value;
            t == s.(balances := t.balances, supply := t.supply)
  {
  }

  lemma ExitOutcome(s: System, beneficiary: Key, k: VaultKey, maker: Key, otoken: Key, settlerOtoken: Account,
                    pool: Account, to: Account, credited: nat)
    ensures var t := Settler.EmergencyWithdraw(s, beneficiary, k, maker, otoken, settlerOtoken, pool, to, credited);
            t.Ok? ==> Exited(s, t.value, k) && (Books(s) ==> Books(t.value))
  {
    hide Books, Exited, Settler.EmergencyWithdraw;
    var i := SettlerIx.EmergencyWithdrawOrder(beneficiary, k, maker, otoken, settlerOtoken, pool, to, credited);
    KeepsBooks(s, i);
    Effects(s, i);
  }

  method EmergencyWithdraw(db: Accounts, beneficiary: Key, k: VaultKey, maker: Key, otoken: Key, settlerOtoken: Account,
                           pool: Account, to: Account, credited: nat) returns (r: Result<()>)
    modifies db
    ensures Matches(Settler.EmergencyWithdraw(old(db.View()), beneficiary, k, maker, otoken, settlerOtoken, pool, to, credited),
                    r, db.View())
    ensures Books(old(db.View())) && r.Ok? ==> Books(db.View())
    ensures r.Ok? ==> Exited(old(db.View()), db.View(), k)
  {
    hide Controller.EmergencyWithdrawVault, Settler.ClearCustody, Books, Exited;
    ghost var s := db.View();
    :- Need(k in db.vaults, AccountMissing);
    :- Need(db.vaults[k].beneficiary == Wallet(beneficiary), Unauthorized);
    :- Need(k.owner == SettlerPda, Unauthorized);
    :- Need(PurseOf(settlerOtoken) == CustodyPurse(otoken), InvalidCustodyAccount);
    var c := CustodyKey(maker, otoken);
    :- Need(c in db.custody, AccountMissing);
    :- Need(k in db.attributions, AccountMissing);
    var mm := db.attributions[k];
    :- Need(mm.maker == maker, Unauthorized);
    :- Need(mm.otoken == otoken, InvalidCustodyAccount);
    var _ :- ClearCustody(db, k, c, settlerOtoken);
    r := ControllerProgram.EmergencyWithdrawVault(db, SettlerPda, k.id, pool, to, credited);
    ExitOutcome(s, beneficiary, k, maker, otoken, settlerOtoken, pool, to, credited);
  }

  // ---------------------------------------------------------------- redemption

  method CashLeg(db: Accounts, c: CustodyKey, a: RedeemAccounts, amount: u64, credited: nat) returns (r: Result<()>)
    modifies db`custody, db`balances, db`supply, db`log
    ensures Matches(Settler.CashLeg(old(db.View()), c, a, amount, credited), r, db.View())
  {
    hide Controller.Redeem;
    :- Need(c in db.custody && amount <= db.custody[c], InsufficientMMBalance);
    db.custody := db.custody[c := db.custody[c] - amount];
    r := ControllerProgram.Redeem(db, SettlerPda, c.otoken, a.settlerOtoken, a.settlerCollateral, a.pool, amount, credited);
  }

  /** Debit the custody ledger, redeem, and pass on the measured payout. */
  method RedeemAndForward(db: Accounts, c: CustodyKey, a: RedeemAccounts, amount: u64, credited: nat) returns (r: Result<()>)
    modifies db`custody, db`balances, db`supply, db`log
    ensures Matches(Settler.RedeemAndForward(old(db.View()), c, a, amount, credited), r, db.View())
  {
    hide Settler.CashLeg, Tokens.Transfer;
    var balanceBefore := db.Funds(a.settlerCollateral);
    var _ :- CashLeg(db, c, a, amount, credited);
    :- Need(balanceBefore <= db.Funds(a.settlerCollateral), MathOverflow);
    var payout := db.Funds(a.settlerCollateral) - balanceBefore;
    if payout > 0 {
      var _ :- db.Transfer(SettlerPda, a.settlerCollateral, a.mmCollateral, payout, payout);
    }
    db.log := Then(db.log, MMRedeemed(c, amount));
    return Ok(());
  }

  method RedeemForMM(db: Accounts, operator: Key, c: CustodyKey, a: RedeemAccounts, amount: u64, credited: nat)
    returns (r: Result<()>)
    modifies db`custody, db`balances, db`supply, db`log
    ensures Matches(Settler.RedeemForMM(old(db.View()), operator, c, a, amount, credited), r, db.View())
    ensures Books(old(db.View())) && r.Ok? ==> Books(db.View())
    ensures Books(old(db.View())) && r.Ok? ==> CashedOut(old(db.View()), db.View(), c, amount, credited)
  {
    hide Settler.RedeemAndForward, Books, CashedOut;
    ghost var s := db.View();
    :- Need(operator == db.settler.operator, Unauthorized);
    :- CheckRedeemAccounts(db.View(), c, a);
    :- Need(amount > 0, ZeroAmount);
    :- Need(!db.settler.paused, Paused);
    :- Need(db.now >= db.series[c.otoken].expiry, OptionNotExpired);
    :- Need(db.series[c.otoken].price > 0, ExpiryPriceNotSet);
    r := RedeemAndForward(db, c, a, amount, credited);
    KeepsBooks(s, SettlerIx.RedeemForMM(operator, c, a, amount, credited));
    Effects(s, SettlerIx.RedeemForMM(operator, c, a, amount, credited));
  }

  method MMSelfRedeem(db: Accounts, maker: Key, otoken: Key, a: RedeemAccounts, amount: u64, credited: nat)
    returns (r: Result<()>)
    modifies db`custody, db`balances, db`supply, db`log
    ensures Matches(Settler.MMSelfRedeem(old(db.View()), maker, otoken, a, amount, credited), r, db.View())
    ensures Books(old(db.View())) && r.Ok? ==> Books(db.View())
    ensures r.Ok? ==> otoken in db.series && db.series[otoken].expiry + db.settler.escapeDelay <= db.now
    ensures Books(old(db.View())) && r.Ok? ==> CashedOut(old(db.View()), db.View(), CustodyKey(maker, otoken), amount, credited)
  {
    hide Settler.RedeemAndForward, Books, CashedOut;
    ghost var s := db.View();
    var c := CustodyKey(maker, otoken);
    :- Need(maker in db.makers, AccountMissing);
    :- Need(db.makers[maker].whitelisted, MakerNotWhitelisted);
    :- CheckRedeemAccounts(db.View(), c, a);
    :- Need(amount > 0, ZeroAmount);
    :- Need(db.settler.escapeDelay > 0, EscapeNotReady);
    var escapeTime := db.series[otoken].expiry + db.settler.escapeDelay;
    :- Need(escapeTime <= 0x7FFF_FFFF_FFFF_FFFF, MathOverflow);
    :- Need(db.now >= escapeTime, EscapeNotReady);
    :- Need(db.series[otoken].price > 0, ExpiryPriceNotSet);
    r := RedeemAndForward(db, c, a, amount, credited);
    KeepsBooks(s, SettlerIx.MMSelfRedeem(maker, otoken, a, amount, credited));
    Effects(s, SettlerIx.MMSelfRedeem(maker, otoken, a, amount, credited));
  }

  /** The checks after the swap, and the transfers out of the settler. */
  method Deliver(db: Accounts, d: Delivery, o: Series, contra: u64, collateralBefore: nat, collateralAfterRedeem: nat,
                 userContraBefore: nat, settlerContraBefore: nat, ghost s: System, ghost redeemed: System) returns (r: Result<()>)
    requires collateralBefore <= collateralAfterRedeem
    requires collateralAfterRedeem == redeemed.Funds(d.accounts.settlerCollateral)
    requires userContraBefore == s.Funds(d.accounts.userContra)
    requires settlerContraBefore == s.Funds(d.accounts.settlerContra)
    modifies db`balances
    ensures Matches(Settler.Deliver(s, redeemed, old(db.View()), d, o, collateralAfterRedeem - collateralBefore, contra), r, db.View())
  {
    hide Tokens.Transfer;
    var a := d.accounts;
    var received := collateralAfterRedeem - collateralBefore;
    :- Need(db.Funds(a.settlerCollateral) <= collateralAfterRedeem, MathOverflow);
    var used := collateralAfterRedeem - db.Funds(a.settlerCollateral);
    :- Need(used <= d.maxCollateralSpent, ExcessCollateralUsed);
    :- Need(userContraBefore <= db.Funds(a.userContra), MathOverflow);
    :- Need(settlerContraBefore <= db.Funds(a.settlerContra), MathOverflow);
    var userDelta := db.Funds(a.userContra) - userContraBefore;
    var settlerDelta := db.Funds(a.settlerContra) - settlerContraBefore;
    if o.isPut {
      :- Need(userDelta >= contra, InsufficientSwapOutput);
      :- Need(settlerDelta == 0, UnexpectedSwapDestination);
      :- Need(used > 0, UnexpectedSwapDestination);
      :- Need(used <= received, MathOverflow);
      if received - used > 0 {
        var _ :- db.Transfer(SettlerPda, a.settlerCollateral, a.mmCollateral, received - used, received - used);
      }
    } else {
      :- Need(used == received, UnexpectedSwapDestination);
      :- Need(settlerDelta >= contra, InsufficientSwapOutput);
      :- Need(userDelta == 0, UnexpectedSwapDestination);
      var _ :- db.Transfer(SettlerPda, a.settlerContra, a.userContra, contra, contra);
      if settlerDelta - contra > 0 {
        var _ :- db.Transfer(SettlerPda, a.settlerContra, a.mmCollateral, settlerDelta - contra, settlerDelta - contra);
      }
    }
    return Ok(());
  }

  method ValidateDelivery(db: Accounts, d: Delivery) returns (contra: Result<u64>)
    ensures contra == DeliveryTerms(db.View(), d)
  {
    hide CheckDeliveryAccounts, ComputeContraAmount;
    var c := d.custody;
    :- CheckDeliveryAccounts(db.View(), d);
    Delivers(db.View(), d);
    var o := db.series[c.otoken];
    :- Need(d.amount > 0, ZeroAmount);
    :- Need(!db.settler.paused, Paused);
    :- ValidateItm(o, db.now);
    :- Need(d.contraMint == ContraMintOf(o), InvalidContraMint);
    var owed :- ComputeContraAmount(d.amount, o.strike, o.isPut, d.contraDecimals);
    :- Need(d.accounts.mmCollateral.mint == SurplusMintOf(o), InvalidCustodyAccount);
    return Ok(owed);
  }

  method RedeemLeg(db: Accounts, d: Delivery) returns (r: Result<()>)
    modifies db`attributions, db`custody, db`balances, db`supply, db`log
    ensures Matches(Settler.RedeemLeg(old(db.View()), d), r, db.View())
  {
    hide Controller.Redeem;
    var c, a := d.custody, d.accounts;
    :- Need(c in db.custody && d.amount <= db.custody[c], InsufficientMMBalance);
    :- Need(d.vault in db.attributions && d.amount <= db.attributions[d.vault].remaining, InsufficientMMBalance);
    var mm := db.attributions[d.vault];
    db.attributions := db.attributions[d.vault := mm.(remaining := mm.remaining - d.amount)];
    db.custody := db.custody[c := db.custody[c] - d.amount];
    r := ControllerProgram.Redeem(db, SettlerPda, c.otoken, a.settlerOtoken, a.settlerCollateral, a.pool, d.amount, d.credited);
  }

  method InvokeSwap(db: Accounts, d: Delivery) returns (r: Result<()>)
    modifies db`balances
    ensures Matches(Settler.InvokeSwap(old(db.View()), d), r, db.View())
  {
    hide Travel;
    var config := db.settler;
    :- Need(d.jupiter == config.jupiter, InvalidJupiterProgram);
    var swapped :- Travel(db.View(), d, d.route);
    TravelRecords(db.View(), d, d.route);
    db.balances := swapped.balances;
    return Ok(());
  }

  method RedeemAndDeliver(db: Accounts, d: Delivery, contra: u64) returns (r: Result<()>)
    requires d.custody.otoken in db.series
    modifies db`attributions, db`custody, db`balances, db`supply, db`log
    ensures Matches(Settler.RedeemAndDeliver(old(db.View()), d, contra), r, db.View())
  {
    hide Settler.RedeemLeg, Settler.Deliver, Settler.InvokeSwap;
    ghost var s := db.View();
    var a := d.accounts;
    var o := db.series[d.custody.otoken];
    var collateralBefore, userContraBefore, settlerContraBefore :=
      db.Funds(a.settlerCollateral), db.Funds(a.userContra), db.Funds(a.settlerContra);
    var _ :- RedeemLeg(db, d);
    var collateralAfterRedeem := db.Funds(a.settlerCollateral);
    :- Need(collateralBefore <= collateralAfterRedeem, MathOverflow);
    :- Need(collateralAfterRedeem - collateralBefore > 0, RedeemReturnedZero);
    ghost var redeemed := db.View();
    var _ :- InvokeSwap(db, d);
    var _ :- Deliver(db, d, o, contra, collateralBefore, collateralAfterRedeem, userContraBefore,
                     settlerContraBefore, s, redeemed);
    db.log := Then(db.log, PhysicalDelivery(d.vault, d.amount));
    return Ok(());
  }

  method PhysicalRedeem(db: Accounts, d: Delivery) returns (r: Result<()>)
    modifies db`attributions, db`custody, db`balances, db`supply, db`log
    ensures Matches(Settler.PhysicalRedeem(old(db.View()), d), r, db.View())
    ensures Books(old(db.View())) && r.Ok? ==> Books(db.View())
    ensures Books(old(db.View())) && r.Ok? ==> Delivered(old(db.View()), db.View(), d)
  {
    hide DeliveryTerms, Settler.RedeemAndDeliver, Books, Delivered;
    ghost var s := db.View();
    var contra := ValidateDelivery(db, d);
    if contra.Err? {
      return Err(contra.error);
    }
    r := RedeemAndDeliver(db, d, contra.value);
    KeepsBooks(s, SettlerIx.PhysicalRedeem(d));
    Effects(s, SettlerIx.PhysicalRedeem(d));
  }

  lemma Delivers(s: System, d: Delivery)
    requires CheckDeliveryAccounts(s, d).Pass?
    ensures d.custody.otoken in s.series
  {
  }

  // ---------------------------------------------------------------- configuration

  method SetProtocolFee(db: Accounts, signer: Key, feeBps: u16) returns (r: Result<()>)
    modifies db`settler
    ensures Matches(Settler.SetProtocolFee(old(db.View()), signer, feeBps), r, db.View())
    ensures Books(old(db.View())) && r.Ok? ==> Books(db.View())
    ensures r.Ok? ==> db.settler == old(db.settler).(feeBps := feeBps) && signer == db.settler.owner && feeBps <= 2000
  {
    hide Books;
    ghost var s := db.View();
    var config := db.settler;
    :- Need(signer == config.owner, ConstraintViolated);
    :- Need(feeBps <= MAX_FEE_BPS, FeeTooHigh);
    db.settler := config.(feeBps := feeBps);
    KeepsBooks(s, SettlerIx.SetProtocolFee(signer, feeBps));
    return Ok(());
  }

  method SetEscapeDelay(db: Accounts, signer: Key, delay: i64) returns (r: Result<()>)
    modifies db`settler
    ensures Matches(Settler.SetEscapeDelay(old(db.View()), signer, delay), r, db.View())
    ensures Books(old(db.View())) && r.Ok? ==> Books(db.View())
    ensures r.Ok? ==> db.settler == old(db.settler).(escapeDelay := delay) && signer == db.settler.owner && 259_200 <= delay
  {
    hide Books;
    ghost var s := db.View();
    var config := db.settler;
    :- Need(signer == config.owner, ConstraintViolated);
    :- Need(delay >= MIN_ESCAPE_DELAY, EscapeDelayTooShort);
    db.settler := config.(escapeDelay := delay);
    KeepsBooks(s, SettlerIx.SetEscapeDelay(signer, delay));
    return Ok(());
  }

  method SetOperator(db: Accounts, signer: Key, operator: Key) returns (r: Result<()>)
    modifies db`settler
    ensures Matches(Settler.SetOperator(old(db.View()), signer, operator), r, db.View())
  {
    var config := db.settler;
    :- Need(signer == config.owner, ConstraintViolated);
    :- Need(operator != 0, ZeroAddress);
    db.settler := config.(operator := operator);
    return Ok(());
  }

  method SetJupiterProgram(db: Accounts, signer: Key, jupiter: Key) returns (r: Result<()>)
    modifies db`settler
    ensures Matches(Settler.SetJupiterProgram(old(db.View()), signer, jupiter), r, db.View())
  {
    var config := db.settler;
    :- Need(signer == config.owner, ConstraintViolated);
    :- Need(jupiter != 0, ZeroAddress);
    db.settler := config.(jupiter := jupiter);
    return Ok(());
  }

  method SetTreasury(db: Accounts, signer: Key, treasury: Holder) returns (r: Result<()>)
    modifies db`settler
    ensures Matches(Settler.SetTreasury(old(db.View()), signer, treasury), r, db.View())
  {
    var config := db.settler;
    :- Need(signer == config.owner, ConstraintViolated);
    :- Need(treasury != NOBODY, ZeroAddress);
    db.settler := config.(treasury := treasury);
    return Ok(());
  }

  method Pause(db: Accounts, signer: Key, paused: bool) returns (r: Result<()>)
    modifies db`settler
    ensures Matches(Settler.SetPaused(old(db.View()), signer, paused), r, db.View())
  {
    var config := db.settler;
    :- Need(signer == config.owner, ConstraintViolated);
    db.settler := config.(paused := paused);
    return Ok(());
  }
}
