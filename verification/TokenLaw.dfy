/** The laws of the token program, in every state a run can reach: the totals are
    the sums of the accounts, and the accounts of a mint never hold more than its
    supply. */
module TokenLaw {
  import opened Wrappers
  import opened Ints
  import opened Payoff
  import opened Sums
  import opened Model
  import opened Tokens
  import opened Settler
  import opened Machine
  import opened PoolBooks
  import Controller
  import Oracle

  ghost function Holdings(l: Ledger, mint: Key): map<Account, int> {
    map a | a in l.accounts :: if a.mint == mint then l.accounts[a] else 0
  }

  ghost function Share(l: Ledger, p: Purse): map<Account, int> {
    map a | a in l.accounts :: if PurseOf(a) == p then l.accounts[a] else 0
  }

  /** The total of each purse is what its accounts hold. */
  ghost predicate Summed(l: Ledger) {
    forall p :: l.Of(p) == MapSum(Share(l, p))
  }

  ghost predicate WithinSupply(s: System, mint: Key) {
    MapSum(Holdings(s.balances, mint)) <= s.Supply(mint) <= U64_MAX
  }

  /** Only series that can be priced were ever minted. */
  ghost predicate Issuable(series: map<Key, Series>, supply: map<Key, nat>) {
    forall o | o in series :: series[o].decimals <= 18 && (o in supply && supply[o] > 0 ==> series[o].Priceable())
  }

  ghost predicate Lawful(s: System) {
    Summed(s.balances) && (forall mint :: WithinSupply(s, mint)) && Issuable(s.series, s.supply)
  }

  /** One account set to `x`. */
  lemma AccountSet(l: Ledger, m: Ledger, a: Account, x: nat)
    requires m.accounts == l.accounts[a := x]
    ensures forall mint :: MapSum(Holdings(m, mint)) == MapSum(Holdings(l, mint)) + (if a.mint == mint then x - l.In(a) else 0)
    ensures forall p :: MapSum(Share(m, p)) == MapSum(Share(l, p)) + (if PurseOf(a) == p then x - l.In(a) else 0)
  {
    hide MapSum;
    forall mint
      ensures MapSum(Holdings(m, mint)) == MapSum(Holdings(l, mint)) + (if a.mint == mint then x - l.In(a) else 0)
    {
      var y := if a.mint == mint then x else 0;
      assert Holdings(m, mint) == Holdings(l, mint)[a := y];
      SumUpdate(Holdings(l, mint), a, y);
    }
    forall p ensures MapSum(Share(m, p)) == MapSum(Share(l, p)) + (if PurseOf(a) == p then x - l.In(a) else 0) {
      var y := if PurseOf(a) == p then x else 0;
      assert Share(m, p) == Share(l, p)[a := y];
      SumUpdate(Share(l, p), a, y);
    }
  }

  lemma DebitSums(l: Ledger, a: Account, amount: nat)
    requires Summed(l) && amount <= l.In(a) && amount <= l.Of(PurseOf(a))
    ensures Summed(l.Debit(a, amount))
    ensures forall mint :: MapSum(Holdings(l.Debit(a, amount), mint)) == MapSum(Holdings(l, mint)) - (if a.mint == mint then amount else 0)
  {
    hide MapSum, Holdings, Share;
    var m := l.Debit(a, amount);
    AccountSet(l, m, a, l.In(a) - amount);
    forall p ensures m.Of(p) == MapSum(Share(m, p)) {
      assert l.Of(p) == MapSum(Share(l, p));
    }
  }

  lemma CreditSums(l: Ledger, a: Account, amount: nat)
    requires Summed(l)
    ensures Summed(l.Credit(a, amount))
    ensures forall mint :: MapSum(Holdings(l.Credit(a, amount), mint)) == MapSum(Holdings(l, mint)) + (if a.mint == mint then amount else 0)
  {
    hide MapSum, Holdings, Share;
    var m := l.Credit(a, amount);
    AccountSet(l, m, a, l.In(a) + amount);
    forall p ensures m.Of(p) == MapSum(Share(m, p)) {
      assert l.Of(p) == MapSum(Share(l, p));
    }
  }

  // ---------------------------------------------------------------- token program

  lemma TransferLawful(s: System, authority: Holder, from: Account, to: Account, amount: nat, credited: nat)
    requires Lawful(s) && Transfer(s, authority, from, to, amount, credited).Ok?
    ensures Lawful(Transfer(s, authority, from, to, amount, credited).value)
  {
    hide MapSum, Holdings, Summed, Issuable;
    var t := Transfer(s, authority, from, to, amount, credited).value;
    DebitSums(s.balances, from, amount);
    CreditSums(s.balances.Debit(from, amount), to, credited);
    forall mint ensures WithinSupply(t, mint) {
      assert WithinSupply(s, mint);
    }
  }

  lemma MintLawful(s: System, mint: Key, to: Account, amount: nat)
    requires Lawful(s) && MintTo(s, mint, to, amount).Ok? && (mint in s.series ==> s.series[mint].Priceable())
    ensures Lawful(MintTo(s, mint, to, amount).value)
  {
    hide MapSum, Holdings, Summed;
    var t := MintTo(s, mint, to, amount).value;
    CreditSums(s.balances, to, amount);
    forall m ensures WithinSupply(t, m) {
      assert WithinSupply(s, m);
    }
  }

  lemma BurnLawful(s: System, authority: Holder, from: Account, amount: nat)
    requires Lawful(s) && Burn(s, authority, from, amount).Ok?
    ensures Lawful(Burn(s, authority, from, amount).value)
  {
    hide MapSum, Holdings, Summed;
    var t := Burn(s, authority, from, amount).value;
    DebitSums(s.balances, from, amount);
    forall m ensures WithinSupply(t, m) {
      assert WithinSupply(s, m);
    }
  }

  /** Records other than tokens and series are free to change. */
  lemma SameTokens(s: System, t: System)
    requires Lawful(s) && t.balances == s.balances && t.supply == s.supply && t.series == s.series
    ensures Lawful(t)
  {
    forall mint ensures WithinSupply(t, mint) {
      assert WithinSupply(s, mint);
    }
  }

  /** So no account holds more than its purse, and no purse more than the supply. */
  lemma HeldWithinSupply(s: System, p: Purse)
    requires Lawful(s)
    ensures s.Balance(p) <= s.Supply(p.mint) <= U64_MAX
    ensures forall a | PurseOf(a) == p :: s.Funds(a) <= s.Balance(p)
  {
    assert WithinSupply(s, p.mint);
    SumMono(Share(s.balances, p), Holdings(s.balances, p.mint));
    forall a | PurseOf(a) == p ensures s.Funds(a) <= s.Balance(p) {
      if a in s.balances.accounts {
        SumAtLeast(Share(s.balances, p), a);
      }
    }
  }

  // ---------------------------------------------------------------- controller

  lemma PayOutLawful(s: System, pool: Account, to: Account, amount: nat, credited: nat)
    requires Lawful(s) && Controller.PayOut(s, pool, to, amount, credited).Ok?
    ensures Lawful(Controller.PayOut(s, pool, to, amount, credited).value)
  {
    hide Lawful, Transfer;
    if amount > 0 {
      TransferLawful(s, pool.owner, pool, to, amount, credited);
    }
  }

  lemma OpenLawful(s: System, owner: Holder, mint: Key, beneficiary: Holder)
    requires Lawful(s) && Controller.OpenVault(s, owner, mint, beneficiary).Ok?
    ensures Lawful(Controller.OpenVault(s, owner, mint, beneficiary).value)
  {
    hide Lawful;
    SameTokens(s, Controller.OpenVault(s, owner, mint, beneficiary).value);
  }

  lemma DepositLawful(s: System, owner: Holder, id: nat, from: Account, pool: Account, amount: u64, credited: nat)
    requires Lawful(s) && Controller.Deposit(s, owner, id, from, pool, amount, credited).Ok?
    ensures Lawful(Controller.Deposit(s, owner, id, from, pool, amount, credited).value)
  {
    hide Lawful, Transfer;
    TransferLawful(s, owner, from, pool, amount, credited);
    SameTokens(Transfer(s, owner, from, pool, amount, credited).value, Controller.Deposit(s, owner, id, from, pool, amount, credited).value);
  }

  lemma MintingLawful(s: System, owner: Holder, id: nat, otoken: Key, to: Account, amount: u64)
    requires Lawful(s) && Controller.Mint(s, owner, id, otoken, to, amount).Ok?
    ensures Lawful(Controller.Mint(s, owner, id, otoken, to, amount).value)
  {
    hide Lawful, MintTo, GetRequiredCollateral;
    MintsPriceable(s, owner, id, otoken, to, amount);
    MintLawful(s, otoken, to, amount);
    SameTokens(MintTo(s, otoken, to, amount).value, Controller.Mint(s, owner, id, otoken, to, amount).value);
  }

  lemma MintsPriceable(s: System, owner: Holder, id: nat, otoken: Key, to: Account, amount: u64)
    requires Lawful(s) && Controller.Mint(s, owner, id, otoken, to, amount).Ok?
    ensures otoken in s.series && s.series[otoken].Priceable()
  {
    hide GetRequiredCollateral, Summed, WithinSupply, MintTo;
    RequirementIsExact(s.series[otoken], s.vaults[VaultKey(owner, id)].short + amount);
  }

  lemma SettleLawful(s: System, signer: Key, owner: Holder, id: nat, pool: Account, to: Account, credited: nat)
    requires Lawful(s) && Controller.Settle(s, signer, owner, id, pool, to, credited).Ok?
    ensures Lawful(Controller.Settle(s, signer, owner, id, pool, to, credited).value)
  {
    hide Lawful, Controller.PayOut, GetPayout;
    var v := s.vaults[VaultKey(owner, id)];
    var returned := v.collateral - s.series[v.otoken].Payout(v.short).value;
    PayOutLawful(s, pool, to, returned, credited);
    SameTokens(Controller.PayOut(s, pool, to, returned, credited).value, Controller.Settle(s, signer, owner, id, pool, to, credited).value);
  }

  lemma RedeemLawful(s: System, redeemer: Holder, otoken: Key, from: Account, to: Account, pool: Account, amount: u64, credited: nat)
    requires Lawful(s) && Controller.Redeem(s, redeemer, otoken, from, to, pool, amount, credited).Ok?
    ensures Lawful(Controller.Redeem(s, redeemer, otoken, from, to, pool, amount, credited).value)
  {
    hide Lawful, Burn, Controller.PayOut, GetPayout;
    BurnLawful(s, redeemer, from, amount);
    var burned, payout := Burn(s, redeemer, from, amount).value, s.series[otoken].Payout(amount).value;
    PayOutLawful(burned, pool, to, payout, credited);
    SameTokens(Controller.PayOut(burned, pool, to, payout, credited).value,
               Controller.Redeem(s, redeemer, otoken, from, to, pool, amount, credited).value);
  }

  lemma WithdrawLawful(s: System, owner: Holder, id: nat, pool: Account, to: Account, credited: nat)
    requires Lawful(s) && Controller.EmergencyWithdrawVault(s, owner, id, pool, to, credited).Ok?
    ensures Lawful(Controller.EmergencyWithdrawVault(s, owner, id, pool, to, credited).value)
  {
    hide Lawful, Controller.PayOut;
    var k := VaultKey(owner, id);
    var marked := s.(vaults := s.vaults[k := s.vaults[k].(settled := true)]);
    SameTokens(s, marked);
    PayOutLawful(marked, pool, to, s.vaults[k].collateral, credited);
    SameTokens(Controller.PayOut(marked, pool, to, s.vaults[k].collateral, credited).value,
               Controller.EmergencyWithdrawVault(s, owner, id, pool, to, credited).value);
  }

  /** Registrations, prices, counters and pauses move no tokens. */
  lemma PaperLawful(s: System, i: ControllerIx)
    requires Lawful(s) && ApplyController(s, i).Ok?
    requires i.InitializeCounter? || i.CreateOTokenInfo? || i.SetSeriesPrice? || i.SetPartialPauser? || i.SetPartiallyPaused? || i.SetFullyPaused?
    ensures Lawful(ApplyController(s, i).value)
  {
    hide Lawful, Controller.OpenVault, Controller.Deposit, Controller.Mint, Controller.Settle, Controller.Redeem,
         Controller.EmergencyWithdrawVault;
    if i.CreateOTokenInfo? || i.SetSeriesPrice? {
      SeriesLawful(s, ApplyController(s, i).value, i.otoken);
    } else {
      SameTokens(s, ApplyController(s, i).value);
    }
  }

  /** A new series has no supply; a price changes no terms. */
  lemma SeriesLawful(s: System, t: System, otoken: Key)
    requires Lawful(s) && SeriesAdvance(s, t, otoken)
    requires otoken !in s.series ==> s.Supply(otoken) == 0 && t.series[otoken].decimals <= 18
    ensures Lawful(t)
  {
    hide Summed;
    forall mint ensures WithinSupply(t, mint) {
      assert WithinSupply(s, mint);
    }
  }

  lemma ControllerLawful(s: System, i: ControllerIx)
    requires Lawful(s) && ApplyController(s, i).Ok?
    ensures Lawful(ApplyController(s, i).value)
  {
    hide Lawful, Controller.OpenVault, Controller.Deposit, Controller.Mint, Controller.Settle, Controller.Redeem,
         Controller.EmergencyWithdrawVault, Controller.CreateSeries, Controller.SetExpiryPrice, Controller.InitializeCounter,
         Controller.SetPartialPauser, Controller.SetPartiallyPaused, Controller.SetFullyPaused;
    match i
    case OpenVault(owner, mint, beneficiary) => OpenLawful(s, Wallet(owner), mint, beneficiary);
    case DepositCollateral(owner, id, from, pool, amount, credited) => DepositLawful(s, Wallet(owner), id, from, pool, amount, credited);
    case MintOtoken(owner, id, otoken, to, amount) => MintingLawful(s, Wallet(owner), id, otoken, to, amount);
    case SettleVault(signer, k, pool, to, credited) => SettleLawful(s, signer, k.owner, k.id, pool, to, credited);
    case Redeem(redeemer, otoken, from, to, pool, amount, credited) =>
      RedeemLawful(s, Wallet(redeemer), otoken, from, to, pool, amount, credited);
    case EmergencyWithdrawVault(owner, id, pool, to, credited) => WithdrawLawful(s, Wallet(owner), id, pool, to, credited);
    case _ => PaperLawful(s, i);
  }

  // ---------------------------------------------------------------- settler

  lemma WriteOptionLawful(s: System, a: Order)
    requires Lawful(s) && WriteOption(s, a).Ok?
    ensures Lawful(WriteOption(s, a).value)
  {
    hide Lawful, Controller.Deposit, Controller.Mint;
    var id := s.counters[SettlerPda];
    var vaulted := Controller.OpenVault(s, SettlerPda, a.collateralMint, Wallet(a.user)).value;
    OpenLawful(s, SettlerPda, a.collateralMint, Wallet(a.user));
    var funded := Controller.Deposit(vaulted, SettlerPda, id, a.accounts.userCollateral, a.accounts.pool, a.collateralAmount, a.credited).value;
    DepositLawful(vaulted, SettlerPda, id, a.accounts.userCollateral, a.accounts.pool, a.collateralAmount, a.credited);
    MintingLawful(funded, SettlerPda, id, a.otoken, a.accounts.settlerOtoken, a.amount);
  }

  lemma PremiumLawful(s: System, a: Order, split: Split)
    requires Lawful(s) && PayPremium(s, a, split).Ok?
    ensures Lawful(PayPremium(s, a, split).value)
  {
    hide Lawful, Transfer;
    var paid := s;
    if split.net > 0 {
      TransferLawful(s, SettlerPda, a.accounts.mmPremium, a.accounts.userPremium, split.net, split.net);
      paid := Transfer(s, SettlerPda, a.accounts.mmPremium, a.accounts.userPremium, split.net, split.net).value;
    }
    if split.fee > 0 {
      TransferLawful(paid, SettlerPda, a.accounts.mmPremium, a.accounts.treasury, split.fee, split.fee);
    }
  }

  lemma FillLawful(s: System, a: Order, split: Split)
    requires Lawful(s) && FillOrder(s, a, split).Ok?
    ensures Lawful(FillOrder(s, a, split).value)
  {
    hide Lawful, WriteOption, PayPremium;
    WriteOptionLawful(s, a);
    var k := VaultKey(SettlerPda, if SettlerPda in s.counters then s.counters[SettlerPda] else 0);
    var written := WriteOption(s, a).value;
    var attributed := Attribute(written, k, a.maker, a.otoken, a.amount).value;
    SameTokens(written, attributed);
    PremiumLawful(attributed, a, split);
    SameTokens(PayPremium(attributed, a, split).value, FillOrder(s, a, split).value);
  }

  lemma OrderLawful(s: System, a: Order)
    requires Lawful(s) && Settler.ExecuteOrder(s, a).Ok?
    ensures Lawful(Settler.ExecuteOrder(s, a).value)
  {
    hide Lawful, CheckOrder, FillOrder, ComputePremiumSplit;
    var fill := UpdateFill(FillOf(s, a.Fill()), a.amount, a.maxAmount).value;
    var filled := s.(fills := s.fills[a.Fill() := fill]);
    SameTokens(s, filled);
    FillLawful(filled, a, ComputePremiumSplit(a.amount, a.bidPrice, s.settler.feeBps).value);
  }

  lemma ExitLawful(s: System, beneficiary: Key, k: VaultKey, maker: Key, otoken: Key, settlerOtoken: Account,
                   pool: Account, to: Account, credited: nat)
    requires Lawful(s) && EmergencyWithdraw(s, beneficiary, k, maker, otoken, settlerOtoken, pool, to, credited).Ok?
    ensures Lawful(EmergencyWithdraw(s, beneficiary, k, maker, otoken, settlerOtoken, pool, to, credited).value)
  {
    hide Lawful, Burn, Controller.EmergencyWithdrawVault;
    var c, mm := CustodyKey(maker, otoken), s.attributions[k];
    var amount := Min(mm.remaining, s.custody[c]);
    var burned := s;
    if amount > 0 {
      BurnLawful(s, SettlerPda, settlerOtoken, amount);
      burned := Burn(s, SettlerPda, settlerOtoken, amount).value;
    }
    var cleared := burned.(custody := burned.custody[c := s.custody[c] - amount],
                           attributions := burned.attributions[k := mm.(remaining := 0)]);
    SameTokens(burned, cleared);
    WithdrawLawful(cleared, SettlerPda, k.id, pool, to, credited);
  }

  lemma ForwardLawful(s: System, c: CustodyKey, a: RedeemAccounts, amount: u64, credited: nat)
    requires Lawful(s) && RedeemAndForward(s, c, a, amount, credited).Ok?
    ensures Lawful(RedeemAndForward(s, c, a, amount, credited).value)
  {
    hide Lawful, Controller.Redeem, Transfer;
    var debited := s.(custody := s.custody[c := s.custody[c] - amount]);
    SameTokens(s, debited);
    RedeemLawful(debited, SettlerPda, c.otoken, a.settlerOtoken, a.settlerCollateral, a.pool, amount, credited);
    var r := Controller.Redeem(debited, SettlerPda, c.otoken, a.settlerOtoken, a.settlerCollateral, a.pool, amount, credited).value;
    var payout := r.Funds(a.settlerCollateral) - s.Funds(a.settlerCollateral);
    var forwarded := r;
    if payout > 0 {
      TransferLawful(r, SettlerPda, a.settlerCollateral, a.mmCollateral, payout, payout);
      forwarded := Transfer(r, SettlerPda, a.settlerCollateral, a.mmCollateral, payout, payout).value;
    }
    SameTokens(forwarded, RedeemAndForward(s, c, a, amount, credited).value);
  }

  lemma {:induction false} TravelLawful(s: System, d: Delivery, route: seq<Hop>)
    requires Lawful(s) && Travel(s, d, route).Ok?
    ensures Lawful(Travel(s, d, route).value)
  {
    hide Lawful, Transfer;
    if route != [] {
      var hop := route[|route| - 1];
      TravelLawful(s, d, route[..|route| - 1]);
      TransferLawful(Travel(s, d, route[..|route| - 1]).value, SettlerPda, hop.from, hop.to, hop.amount, hop.credited);
    }
  }

  lemma DeliverLawful(s: System, r: System, w: System, d: Delivery, o: Series, received: nat, contra: u64)
    requires Lawful(w) && Deliver(s, r, w, d, o, received, contra).Ok?
    ensures Lawful(Deliver(s, r, w, d, o, received, contra).value)
  {
    hide Lawful, Transfer;
    var a := d.accounts;
    var used := r.Funds(a.settlerCollateral) - w.Funds(a.settlerCollateral);
    var output := w.Funds(a.settlerContra) - s.Funds(a.settlerContra);
    if o.isPut {
      if received - used > 0 {
        TransferLawful(w, SettlerPda, a.settlerCollateral, a.mmCollateral, received - used, received - used);
      }
    } else {
      TransferLawful(w, SettlerPda, a.settlerContra, a.userContra, contra, contra);
      var served := Transfer(w, SettlerPda, a.settlerContra, a.userContra, contra, contra).value;
      if output - contra > 0 {
        TransferLawful(served, SettlerPda, a.settlerContra, a.mmCollateral, output - contra, output - contra);
      }
    }
  }

  lemma RedeemLegLawful(s: System, d: Delivery)
    requires Lawful(s) && RedeemLeg(s, d).Ok?
    ensures Lawful(RedeemLeg(s, d).value)
  {
    hide Lawful, Controller.Redeem;
    var c, a := d.custody, d.accounts;
    var mm := s.attributions[d.vault];
    var debited := s.(custody := s.custody[c := s.custody[c] - d.amount],
                      attributions := s.attributions[d.vault := mm.(remaining := mm.remaining - d.amount)]);
    SameTokens(s, debited);
    RedeemLawful(debited, SettlerPda, c.otoken, a.settlerOtoken, a.settlerCollateral, a.pool, d.amount, d.credited);
  }

  lemma DeliveryLawful(s: System, d: Delivery)
    requires Lawful(s) && Settler.PhysicalRedeem(s, d).Ok?
    ensures Lawful(Settler.PhysicalRedeem(s, d).value)
  {
    hide Lawful, DeliveryTerms, RedeemLeg, Travel, Deliver;
    var contra := DeliveryTerms(s, d).value;
    RedeemLegLawful(s, d);
    var r := RedeemLeg(s, d).value;
    TravelLawful(r, d, d.route);
    var w := Travel(r, d, d.route).value;
    var received := r.Funds(d.accounts.settlerCollateral) - s.Funds(d.accounts.settlerCollateral);
    DeliverLawful(s, r, w, d, s.series[d.custody.otoken], received, contra);
    SameTokens(Deliver(s, r, w, d, s.series[d.custody.otoken], received, contra).value, Settler.PhysicalRedeem(s, d).value);
  }

  lemma SettlerLawful(s: System, i: SettlerIx)
    requires Lawful(s) && ApplySettler(s, i).Ok?
    ensures Lawful(ApplySettler(s, i).value)
  {
    hide Lawful, Settler.ExecuteOrder, Controller.Settle, EmergencyWithdraw, RedeemAndForward, CheckRedeemAccounts, Settler.PhysicalRedeem;
    match i
    case ExecuteOrder(a) => OrderLawful(s, a);
    case SettleVaultForMaker(operator, signer, k, pool, to, credited) => SettleLawful(s, signer, k.owner, k.id, pool, to, credited);
    case EmergencyWithdrawOrder(signer, k, maker, otoken, settlerOtoken, pool, to, credited) =>
      ExitLawful(s, signer, k, maker, otoken, settlerOtoken, pool, to, credited);
    case RedeemForMM(operator, c, accounts, amount, credited) => ForwardLawful(s, c, accounts, amount, credited);
    case MMSelfRedeem(maker, otoken, accounts, amount, credited) =>
      ForwardLawful(s, CustodyKey(maker, otoken), accounts, amount, credited);
    case PhysicalRedeem(d) => DeliveryLawful(s, d);
    case _ => SameTokens(s, ApplySettler(s, i).value);
  }

  // ---------------------------------------------------------------- runs

  lemma OracleLawful(s: System, i: OracleIx)
    requires Lawful(s) && ApplyOracle(s, i).Ok?
    ensures Lawful(ApplyOracle(s, i).value)
  {
    hide Lawful, Oracle.ParsePrice, Oracle.Normalize, Oracle.ValidatePriceDeviation, Oracle.ValidateConfidence, Oracle.ValidateStaleness;
    SameTokens(s, ApplyOracle(s, i).value);
  }

  lemma WorldLawful(s: System, i: WorldIx)
    requires Lawful(s) && ApplyWorld(s, i).Ok?
    ensures Lawful(ApplyWorld(s, i).value)
  {
    hide Lawful, Transfer, MintTo, Burn;
    var t := ApplyWorld(s, i).value;
    match i
    case Tick(_) => SameTokens(s, t);
    case Send(owner, from, to, units, credited) =>
      TransferLawful(s, Wallet(owner), from, to, units, credited);
      SameTokens(Transfer(s, Wallet(owner), from, to, units, credited).value, t);
    case Issue(to, units) =>
      MintLawful(s, to.mint, to, units);
      SameTokens(MintTo(s, to.mint, to, units).value, t);
    case Spend(owner, from, units) =>
      BurnLawful(s, Wallet(owner), from, units);
      SameTokens(Burn(s, Wallet(owner), from, units).value, t);
  }

  lemma StepLawful(s: System, i: Instruction)
    requires Lawful(s)
    ensures Lawful(Step(s, i))
  {
    hide Lawful, ApplyController, ApplyOracle, ApplySettler, ApplyWorld;
    if Apply(s, i).Ok? {
      match i
      case ToController(c) => ControllerLawful(s, c);
      case ToOracle(o) => OracleLawful(s, o);
      case ToSettler(b) => SettlerLawful(s, b);
      case Outside(w) => WorldLawful(s, w);
    }
  }

  lemma {:induction false} StaysLawful(s: System, steps: seq<Instruction>)
    requires Lawful(s)
    ensures Lawful(Run(s, steps))
  {
    hide Lawful, Step;
    if steps != [] {
      StaysLawful(s, steps[..|steps| - 1]);
      StepLawful(Run(s, steps[..|steps| - 1]), steps[|steps| - 1]);
    }
  }

  /** Over every run, the accounts of each purse add up to its total, and those of
      each mint hold no more than its supply. */
  lemma RunLawful(s: System, steps: seq<Instruction>)
    requires Initial(s)
    ensures Lawful(Run(s, steps))
  {
    hide Lawful, Initial, Run;
    InitialLawful(s);
    StaysLawful(s, steps);
  }

  lemma InitialLawful(s: System)
    requires Initial(s)
    ensures Lawful(s)
  {
    forall mint ensures WithinSupply(s, mint) {
      assert Holdings(s.balances, mint) == map[];
    }
    forall p ensures MapSum(Share(s.balances, p)) == 0 {
      assert Share(s.balances, p) == map[];
    }
  }
}
