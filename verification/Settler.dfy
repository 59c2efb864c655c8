/** What each settler instruction does to the accounts, or why it aborts. */
module Settler {
  import opened Wrappers
  import opened Ints
  import opened Bytes
  import opened Payoff
  import opened Model
  import opened Tokens
  import opened Quotes
  import Controller

  const MIN_EXECUTE_AMOUNT: nat := 1_000_000
  const MIN_ESCAPE_DELAY: nat := 259_200

  // ---------------------------------------------------------------- quotes

  function ValidateMaker(m: MakerState, nonce: u64): Check {
    if !m.whitelisted then Fail(MakerNotWhitelisted)
    else if m.nonce != nonce then Fail(InvalidNonce)
    else Pass
  }

  function UpdateFill(f: QuoteFill, amount: u64, maxAmount: u64): Result<QuoteFill> {
    var filled := f.filled + amount;
    :- Need(!f.cancelled, Error.QuoteCancelled);
    :- Need(filled <= U64_MAX, MathOverflow);
    :- Need(filled <= maxAmount, QuoteExceeded);
    Ok(f.(filled := filled))
  }

  function FillOf(s: System, q: QuoteKey): QuoteFill {
    if q in s.fills then s.fills[q] else QuoteFill(0, false)
  }

  function WhitelistMaker(s: System, signer: Key, maker: Key, whitelisted: bool): Result<System> {
    var config := s.settler;
    :- Need(signer == config.owner, ConstraintViolated);
    var state := if maker in s.makers then s.makers[maker] else MakerState(0, false);
    Ok(s.(makers := s.makers[maker := state.(whitelisted := whitelisted)]))
  }

  function IncrementNonce(s: System, maker: Key): Result<System> {
    var known := maker in s.makers;
    :- Need(known, AccountMissing);
    :- Need(s.makers[maker].nonce + 1 <= U64_MAX, MathOverflow);
    Ok(s.(makers := s.makers[maker := s.makers[maker].(nonce := s.makers[maker].nonce + 1)]))
  }

  function CancelQuote(s: System, maker: Key, id: u64): Result<System> {
    var known := maker in s.makers;
    :- Need(known, AccountMissing);
    var q := QuoteKey(maker, s.makers[maker].nonce, id);
    :- Need(!FillOf(s, q).cancelled, QuoteAlreadyCancelled);
    Ok(s.(fills := s.fills[q := FillOf(s, q).(cancelled := true)]))
  }

  // ---------------------------------------------------------------- execute_order

  datatype OrderAccounts =
    OrderAccounts(userCollateral: Account, pool: Account, settlerOtoken: Account, mmPremium: Account, userPremium: Account, treasury: Account)

  datatype Order = Order(
    user: Key, maker: Key, otoken: Key, amount: u64, bidPrice: u64, deadline: i64, quoteId: u64, maxAmount: u64,
    nonce: u64, premiumMint: Key, collateralAmount: u64, collateralMint: Key,
    accounts: OrderAccounts, ixs: seq<Ix>, current: nat, credited: nat)
  {
    function Quote(): Quote {
      Quotes.Quote(otoken, premiumMint, bidPrice, deadline, quoteId, maxAmount, nonce)
    }

    function Fill(): QuoteKey { QuoteKey(maker, nonce, quoteId) }
  }

  /** The checks before anything moves. */
  function CheckOrder(s: System, a: Order): Check {
    if a.maker !in s.makers then Fail(AccountMissing)
    else if a.amount == 0 then Fail(ZeroAmount)
    else if a.amount < MIN_EXECUTE_AMOUNT then Fail(AmountTooSmall)
    else if a.bidPrice == 0 then Fail(ZeroAmount)
    else if s.settler.paused then Fail(Paused)
    else if a.accounts.userCollateral.owner != Wallet(a.user) then Fail(Unauthorized)
    else if a.accounts.pool.mint != a.collateralMint then Fail(InvalidCustodyAccount)
    else if a.accounts.pool.owner != PoolAuthority(a.collateralMint) then Fail(Unauthorized)
    else if a.accounts.settlerOtoken.mint != a.otoken then Fail(InvalidCustodyAccount)
    else if a.accounts.settlerOtoken.owner != SettlerPda then Fail(InvalidCustodyAccount)
    else if a.accounts.mmPremium.owner != Wallet(a.maker) then Fail(InvalidCustodyAccount)
    else if a.accounts.mmPremium.mint != a.premiumMint then Fail(InvalidCustodyAccount)
    else if a.accounts.userPremium.owner != Wallet(a.user) then Fail(Unauthorized)
    else if a.accounts.userPremium.mint != a.premiumMint then Fail(InvalidCustodyAccount)
    else if a.accounts.treasury.owner != s.settler.treasury then Fail(InvalidTreasury)
    else if a.accounts.treasury.mint != a.premiumMint then Fail(InvalidTreasury)
    else if ValidateMaker(s.makers[a.maker], a.nonce).Fail? then ValidateMaker(s.makers[a.maker], a.nonce)
    else if VerifySignature(a.ixs, a.current, ToLE(a.maker, 32), Message(a.Quote())).Err?
    then Fail(VerifySignature(a.ixs, a.current, ToLE(a.maker, 32), Message(a.Quote())).error)
    else if s.now > a.deadline then Fail(QuoteExpired)
    else Pass
  }

  /** The collateral leg: a fresh vault, one deposit, one mint into custody. */
  function WriteOption(s: System, a: Order): Result<System> {
    var vaulted :- Controller.OpenVault(s, SettlerPda, a.collateralMint, Wallet(a.user));
    var id := s.counters[SettlerPda];
    var funded :- Controller.Deposit(vaulted, SettlerPda, id, a.accounts.userCollateral, a.accounts.pool, a.collateralAmount, a.credited);
    Controller.Mint(funded, SettlerPda, id, a.otoken, a.accounts.settlerOtoken, a.amount)
  }

  function CustodyOf(s: System, c: CustodyKey): u64 {
    if c in s.custody then s.custody[c] else 0
  }

  /** The ledger leg: custody and attribution of what was written. */
  function Attribute(s: System, k: VaultKey, maker: Key, otoken: Key, amount: u64): Result<System> {
    var c := CustodyKey(maker, otoken);
    :- Need(CustodyOf(s, c) + amount <= U64_MAX, MathOverflow);
    :- Need(k !in s.attributions, InvalidCustodyAccount);
    Ok(s.(custody := s.custody[c := CustodyOf(s, c) + amount],
          attributions := s.attributions[k := VaultMM(maker, otoken, amount)]))
  }

  /** The premium leg: from the maker, net to the user and fee to the treasury. */
  function PayPremium(s: System, a: Order, split: Split): Result<System> {
    var paid :-
      if split.net > 0 then Transfer(s, SettlerPda, a.accounts.mmPremium, a.accounts.userPremium, split.net, split.net)
      else Ok(s);
    if split.fee > 0 then Transfer(paid, SettlerPda, a.accounts.mmPremium, a.accounts.treasury, split.fee, split.fee)
    else Ok(paid)
  }

  /** Everything after the quote has been validated and charged. */
  function FillOrder(s: System, a: Order, split: Split): Result<System> {
    var k := VaultKey(SettlerPda, if SettlerPda in s.counters then s.counters[SettlerPda] else 0);
    var written :- WriteOption(s, a);
    var attributed :- Attribute(written, k, a.maker, a.otoken, a.amount);
    var paid :- PayPremium(attributed, a, split);
    Ok(paid.Emit(OrderExecuted(a.Fill(), k, a.amount, a.maxAmount, split.fee, PurseOf(a.accounts.treasury))))
  }

  function ExecuteOrder(s: System, a: Order): Result<System> {
    var q := a.Fill();
    :- CheckOrder(s, a);
    var fill :- UpdateFill(FillOf(s, q), a.amount, a.maxAmount);
    var split :- ComputePremiumSplit(a.amount, a.bidPrice, s.settler.feeBps);
    FillOrder(s.(fills := s.fills[q := fill]), a, split)
  }

  // ---------------------------------------------------------------- vaults

  function SettleVault(s: System, operator: Key, signer: Key, owner: Holder, id: nat, pool: Account, to: Account, credited: nat): Result<System> {
    var config := s.settler;
    :- Need(operator == config.operator, Unauthorized);
    Controller.Settle(s, signer, owner, id, pool, to, credited)
  }

  function Min(a: nat, b: nat): nat { if a <= b then a else b }

  /** What an emergency withdrawal burns: the vault's undelivered oTokens, as
      far as the maker's custody goes. */
  function BurnAmount(s: System, k: VaultKey): nat {
    if k in s.attributions
    then Min(s.attributions[k].remaining, CustodyOf(s, CustodyKey(s.attributions[k].maker, s.attributions[k].otoken)))
    else 0
  }

  /** Burns what custody still holds of a vault and clears the vault's remainder. */
  function ClearCustody(s: System, k: VaultKey, c: CustodyKey, settlerOtoken: Account): Result<System>
    requires k in s.attributions && c in s.custody
  {
    var mm := s.attributions[k];
    var amount := Min(mm.remaining, s.custody[c]);
    var burned :- if amount > 0 then Burn(s, SettlerPda, settlerOtoken, amount) else Ok(s);
    Ok(burned.(custody := burned.custody[c := s.custody[c] - amount],
               attributions := burned.attributions[k := mm.(remaining := 0)]))
  }

  function EmergencyWithdraw(s: System, beneficiary: Key, k: VaultKey, maker: Key, otoken: Key, settlerOtoken: Account,
                             pool: Account, to: Account, credited: nat): Result<System> {
    var c := CustodyKey(maker, otoken);
    :- Need(k in s.vaults, AccountMissing);
    :- Need(s.vaults[k].beneficiary == Wallet(beneficiary), Unauthorized);
    :- Need(k.owner == SettlerPda, Unauthorized);
    :- Need(PurseOf(settlerOtoken) == CustodyPurse(otoken), InvalidCustodyAccount);
    :- Need(c in s.custody, AccountMissing);
    :- Need(k in s.attributions, AccountMissing);
    var mm := s.attributions[k];
    :- Need(mm.maker == maker, Unauthorized);
    :- Need(mm.otoken == otoken, InvalidCustodyAccount);
    var cleared :- ClearCustody(s, k, c, settlerOtoken);
    Controller.EmergencyWithdrawVault(cleared, SettlerPda, k.id, pool, to, credited)
  }

  // ---------------------------------------------------------------- cash redemption

  datatype RedeemAccounts = RedeemAccounts(settlerOtoken: Account, settlerCollateral: Account, mmCollateral: Account, pool: Account)

  function CheckRedeemAccounts(s: System, c: CustodyKey, a: RedeemAccounts): Check {
    if c !in s.custody || c.otoken !in s.series then Fail(AccountMissing)
    else if PurseOf(a.settlerOtoken) != CustodyPurse(c.otoken) then Fail(InvalidCustodyAccount)
    else if PurseOf(a.settlerCollateral) != Purse(SettlerPda, s.series[c.otoken].collateralMint) then Fail(InvalidCustodyAccount)
    else if PurseOf(a.mmCollateral) != Purse(Wallet(c.maker), s.series[c.otoken].collateralMint) then Fail(InvalidCustodyAccount)
    else Pass
  }

  /** Debit the custody ledger and redeem. */
  function CashLeg(s: System, c: CustodyKey, a: RedeemAccounts, amount: u64, credited: nat): Result<System> {
    var balance := CustodyOf(s, c);
    :- Need(c in s.custody && amount <= balance, InsufficientMMBalance);
    Controller.Redeem(s.(custody := s.custody[c := balance - amount]), SettlerPda, c.otoken,
                      a.settlerOtoken, a.settlerCollateral, a.pool, amount, credited)
  }

  /** Pass on exactly what arrived. */
  function RedeemAndForward(s: System, c: CustodyKey, a: RedeemAccounts, amount: u64, credited: nat): Result<System> {
    var before := s.Funds(a.settlerCollateral);
    var redeemed :- CashLeg(s, c, a, amount, credited);
    :- Need(before <= redeemed.Funds(a.settlerCollateral), MathOverflow);
    var payout := redeemed.Funds(a.settlerCollateral) - before;
    var forwarded :-
      if payout > 0 then Transfer(redeemed, SettlerPda, a.settlerCollateral, a.mmCollateral, payout, payout)
      else Ok(redeemed);
    Ok(forwarded.Emit(MMRedeemed(c, amount)))
  }

  function RedeemForMM(s: System, operator: Key, c: CustodyKey, a: RedeemAccounts, amount: u64, credited: nat): Result<System> {
    var config := s.settler;
    :- Need(operator == config.operator, Unauthorized);
    :- CheckRedeemAccounts(s, c, a);
    :- Need(amount > 0, ZeroAmount);
    :- Need(!config.paused, Paused);
    :- Need(s.now >= s.series[c.otoken].expiry, OptionNotExpired);
    :- Need(s.series[c.otoken].price > 0, ExpiryPriceNotSet);
    RedeemAndForward(s, c, a, amount, credited)
  }

  /** The escape hatch: no operator and no pause, but a delay after expiry. */
  function MMSelfRedeem(s: System, maker: Key, otoken: Key, a: RedeemAccounts, amount: u64, credited: nat): Result<System> {
    var c := CustodyKey(maker, otoken);
    :- Need(maker in s.makers, AccountMissing);
    :- Need(s.makers[maker].whitelisted, MakerNotWhitelisted);
    :- CheckRedeemAccounts(s, c, a);
    :- Need(amount > 0, ZeroAmount);
    :- Need(s.settler.escapeDelay > 0, EscapeNotReady);
    :- Need(s.series[otoken].expiry + s.settler.escapeDelay <= 0x7FFF_FFFF_FFFF_FFFF, MathOverflow);
    :- Need(s.now >= s.series[otoken].expiry + s.settler.escapeDelay, EscapeNotReady);
    :- Need(s.series[otoken].price > 0, ExpiryPriceNotSet);
    RedeemAndForward(s, c, a, amount, credited)
  }

  // ---------------------------------------------------------------- physical delivery

  function ValidateItm(o: Series, now: i64): Check {
    if now < o.expiry then Fail(OptionNotExpired)
    else if o.price == 0 then Fail(ExpiryPriceNotSet)
    else if o.isPut then if o.price < o.strike then Pass else Fail(OptionNotITM)
    else if o.price > o.strike then Pass else Fail(OptionNotITM)
  }

  datatype DeliveryAccounts = DeliveryAccounts(
    settlerOtoken: Account, settlerCollateral: Account, settlerContra: Account, userContra: Account, mmCollateral: Account, pool: Account)

  /** One transfer of a swap route; the mint may withhold part of the credit. */
  datatype Hop = Hop(from: Account, to: Account, amount: nat, credited: nat)

  /** A delivery request. The route is any sequence of transfers. */
  datatype Delivery = Delivery(
    operator: Key, custody: CustodyKey, vault: VaultKey, user: Key, contraMint: Key, contraDecimals: u8,
    accounts: DeliveryAccounts, amount: u64, maxCollateralSpent: u64, jupiter: Key, route: seq<Hop>, credited: nat)

  function CheckDeliveryAccounts(s: System, d: Delivery): Check {
    var c, a := d.custody, d.accounts;
    if d.operator != s.settler.operator then Fail(Unauthorized)
    else if c !in s.custody || c.otoken !in s.series then Fail(AccountMissing)
    else if PurseOf(a.settlerOtoken) != CustodyPurse(c.otoken) then Fail(InvalidCustodyAccount)
    else if PurseOf(a.settlerCollateral) != Purse(SettlerPda, s.series[c.otoken].collateralMint) then Fail(InvalidCustodyAccount)
    else if a.settlerContra.mint != d.contraMint then Fail(InvalidContraMint)
    else if a.settlerContra.owner != SettlerPda then Fail(InvalidCustodyAccount)
    else if d.vault !in s.vaults then Fail(AccountMissing)
    else if s.vaults[d.vault].otoken != c.otoken then Fail(InvalidCustodyAccount)
    else if s.vaults[d.vault].beneficiary != Wallet(d.user) then Fail(Unauthorized)
    else if d.vault !in s.attributions then Fail(AccountMissing)
    else if s.attributions[d.vault].maker != c.maker then Fail(Unauthorized)
    else if s.attributions[d.vault].otoken != c.otoken then Fail(InvalidCustodyAccount)
    else if a.userContra.mint != d.contraMint then Fail(InvalidContraMint)
    else if a.userContra.owner != Wallet(d.user) then Fail(InvalidCustodyAccount)
    else if a.mmCollateral.owner != Wallet(c.maker) then Fail(InvalidCustodyAccount)
    else Pass
  }

  function ContraMintOf(o: Series): Key { if o.isPut then o.underlying else o.strikeAsset }

  /** The mint of what the maker is left with: collateral for a put, contra for a call. */
  function SurplusMintOf(o: Series): Key { if o.isPut then o.collateralMint else o.strikeAsset }

  /** A route may touch wallets and the two settler accounts it is given. */
  predicate OnRoute(d: Delivery, a: Account) {
    a.owner.Wallet? || a == d.accounts.settlerCollateral || a == d.accounts.settlerContra
  }

  /** The transfers of a route, one after another, with the settler's signature. */
  function Travel(s: System, d: Delivery, route: seq<Hop>): Result<System> {
    if route == [] then Ok(s)
    else
      var before :- Travel(s, d, route[..|route| - 1]);
      var hop := route[|route| - 1];
      :- Need(OnRoute(d, hop.from) && OnRoute(d, hop.to), Environment);
      Transfer(before, SettlerPda, hop.from, hop.to, hop.amount, hop.credited)
  }

  /** Everything checked before the ledgers move; the contra amount owed. */
  function DeliveryTerms(s: System, d: Delivery): (contra: Result<u64>)
    ensures contra.Ok? ==> d.custody.otoken in s.series
  {
    var c, a := d.custody, d.accounts;
    :- CheckDeliveryAccounts(s, d);
    var o := s.series[c.otoken];
    :- Need(d.amount > 0, ZeroAmount);
    :- Need(!s.settler.paused, Paused);
    :- ValidateItm(o, s.now);
    :- Need(d.contraMint == ContraMintOf(o), InvalidContraMint);
    var contra :- ComputeContraAmount(d.amount, o.strike, o.isPut, d.contraDecimals);
    :- Need(a.mmCollateral.mint == SurplusMintOf(o), InvalidCustodyAccount);
    Ok(contra)
  }

  /** Debit both ledgers and redeem. */
  function RedeemLeg(s: System, d: Delivery): Result<System> {
    var c, a := d.custody, d.accounts;
    :- Need(c in s.custody && d.amount <= s.custody[c], InsufficientMMBalance);
    :- Need(d.vault in s.attributions && d.amount <= s.attributions[d.vault].remaining, InsufficientMMBalance);
    var mm := s.attributions[d.vault];
    var debited := s.(custody := s.custody[c := s.custody[c] - d.amount],
                      attributions := s.attributions[d.vault := mm.(remaining := mm.remaining - d.amount)]);
    Controller.Redeem(debited, SettlerPda, c.otoken, a.settlerOtoken, a.settlerCollateral, a.pool, d.amount, d.credited)
  }

  /** The swap program is not trusted: it may take any route it is allowed to. */
  function InvokeSwap(s: System, d: Delivery): Result<System> {
    var config := s.settler;
    :- Need(d.jupiter == config.jupiter, InvalidJupiterProgram);
    Travel(s, d, d.route)
  }

  /** Redeem, swap, deliver. */
  function RedeemAndDeliver(s: System, d: Delivery, contra: u64): Result<System>
    requires d.custody.otoken in s.series
  {
    var c, a := d.custody, d.accounts;
    var redeemed :- RedeemLeg(s, d);
    :- Need(s.Funds(a.settlerCollateral) <= redeemed.Funds(a.settlerCollateral), MathOverflow);
    var received := redeemed.Funds(a.settlerCollateral) - s.Funds(a.settlerCollateral);
    :- Need(received > 0, RedeemReturnedZero);
    var swapped :- InvokeSwap(redeemed, d);
    var delivered :- Deliver(s, redeemed, swapped, d, s.series[c.otoken], received, contra);
    Ok(delivered.Emit(PhysicalDelivery(d.vault, d.amount)))
  }

  function PhysicalRedeem(s: System, d: Delivery): Result<System> {
    var contra :- DeliveryTerms(s, d);
    RedeemAndDeliver(s, d, contra)
  }

  /** The checks after the swap, and the transfers out of the settler. */
  function Deliver(s: System, redeemed: System, swapped: System, d: Delivery, o: Series, received: nat, contra: u64): Result<System> {
    var a := d.accounts;
    :- Need(swapped.Funds(a.settlerCollateral) <= redeemed.Funds(a.settlerCollateral), MathOverflow);
    var used := redeemed.Funds(a.settlerCollateral) - swapped.Funds(a.settlerCollateral);
    :- Need(used <= d.maxCollateralSpent, ExcessCollateralUsed);
    :- Need(s.Funds(a.userContra) <= swapped.Funds(a.userContra), MathOverflow);
    :- Need(s.Funds(a.settlerContra) <= swapped.Funds(a.settlerContra), MathOverflow);
    var userDelta := swapped.Funds(a.userContra) - s.Funds(a.userContra);
    var settlerDelta := swapped.Funds(a.settlerContra) - s.Funds(a.settlerContra);
    if o.isPut then
      :- Need(userDelta >= contra, InsufficientSwapOutput);
      :- Need(settlerDelta == 0, UnexpectedSwapDestination);
      :- Need(used > 0, UnexpectedSwapDestination);
      :- Need(used <= received, MathOverflow);
      if received - used > 0
      then Transfer(swapped, SettlerPda, a.settlerCollateral, a.mmCollateral, received - used, received - used)
      else Ok(swapped)
    else
      :- Need(used == received, UnexpectedSwapDestination);
      :- Need(settlerDelta >= contra, InsufficientSwapOutput);
      :- Need(userDelta == 0, UnexpectedSwapDestination);
      var served :- Transfer(swapped, SettlerPda, a.settlerContra, a.userContra, contra, contra);
      if settlerDelta - contra > 0
      then Transfer(served, SettlerPda, a.settlerContra, a.mmCollateral, settlerDelta - contra, settlerDelta - contra)
      else Ok(served)
  }

  // ---------------------------------------------------------------- configuration

  function SetProtocolFee(s: System, signer: Key, feeBps: u16): Result<System> {
    var config := s.settler;
    :- Need(signer == config.owner, ConstraintViolated);
    :- Need(feeBps <= MAX_FEE_BPS, FeeTooHigh);
    Ok(s.(settler := config.(feeBps := feeBps)))
  }

  function SetEscapeDelay(s: System, signer: Key, delay: i64): Result<System> {
    var config := s.settler;
    :- Need(signer == config.owner, ConstraintViolated);
    :- Need(delay >= MIN_ESCAPE_DELAY, EscapeDelayTooShort);
    Ok(s.(settler := config.(escapeDelay := delay)))
  }

  function SetOperator(s: System, signer: Key, operator: Key): Result<System> {
    var config := s.settler;
    :- Need(signer == config.owner, ConstraintViolated);
    :- Need(operator != 0, ZeroAddress);
    Ok(s.(settler := config.(operator := operator)))
  }

  function SetJupiterProgram(s: System, signer: Key, jupiter: Key): Result<System> {
    var config := s.settler;
    :- Need(signer == config.owner, ConstraintViolated);
    :- Need(jupiter != 0, ZeroAddress);
    Ok(s.(settler := config.(jupiter := jupiter)))
  }

  function SetTreasury(s: System, signer: Key, treasury: Holder): Result<System> {
    var config := s.settler;
    :- Need(signer == config.owner, ConstraintViolated);
    :- Need(treasury != NOBODY, ZeroAddress);
    Ok(s.(settler := config.(treasury := treasury)))
  }

  function SetPaused(s: System, signer: Key, paused: bool): Result<System> {
    var config := s.settler;
    :- Need(signer == config.owner, ConstraintViolated);
    Ok(s.(settler := config.(paused := paused)))
  }
}
