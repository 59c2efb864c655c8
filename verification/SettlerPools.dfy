/** What the settler's instructions keep of the controller's books. */
module SettlerPools {
  import opened Wrappers
  import opened Ints
  import opened Payoff
  import opened Sums
  import opened FloorSums
  import opened Model
  import opened Tokens
  import opened Settler
  import opened SettlerBooks
  import opened OrderSteps
  import opened CustodySteps
  import opened DeliverySteps
  import opened PoolBooks
  import opened Solvency
  import Controller

  // ---------------------------------------------------------------- orders

  lemma WriteOptionPools(s: System, a: Order)
    requires Inv(s) && WriteOption(s, a).Ok?
    requires a.accounts.userCollateral.owner.Wallet? && PurseOf(a.accounts.settlerOtoken) == CustodyPurse(a.otoken)
    ensures Inv(WriteOption(s, a).value)
    ensures SeriesBooks(s) ==> SeriesBooks(WriteOption(s, a).value)
  {
    hide Inv, SeriesBooks, Controller.OpenVault, Controller.Deposit, Controller.Mint;
    OpenLeg(s, a.collateralMint, Wallet(a.user));
    var id := s.counters[SettlerPda];
    var vaulted := Controller.OpenVault(s, SettlerPda, a.collateralMint, Wallet(a.user)).value;
    OpenVaultKeeps(s, SettlerPda, a.collateralMint, Wallet(a.user));
    var funded := Controller.Deposit(vaulted, SettlerPda, id, a.accounts.userCollateral, a.accounts.pool, a.collateralAmount, a.credited).value;
    DepositKeeps(vaulted, SettlerPda, id, a.accounts.userCollateral, a.accounts.pool, a.collateralAmount, a.credited);
    MintKeeps(funded, SettlerPda, id, a.otoken, a.accounts.settlerOtoken, a.amount);
    if SeriesBooks(s) {
      OpenVaultBooks(s, SettlerPda, a.collateralMint, Wallet(a.user));
      DepositBooks(vaulted, SettlerPda, id, a.accounts.userCollateral, a.accounts.pool, a.collateralAmount, a.credited);
      MintBooks(funded, SettlerPda, id, a.otoken, a.accounts.settlerOtoken, a.amount);
    }
  }

  /** Changes to the settler's own records only. */
  lemma RecordsOnly(s: System, t: System)
    requires t == s.(fills := t.fills, makers := t.makers, settler := t.settler, custody := t.custody, attributions := t.attributions)
    ensures Inv(s) ==> Inv(t)
    ensures SeriesBooks(s) ==> SeriesBooks(t)
  {
    if Inv(s) { QuietStep(s, t); }
    if SeriesBooks(s) { IdleBooks(s, t); }
  }

  /** One neutral event, and no supply moved. */
  lemma NeutralPools(s: System, t: System, e: Event)
    requires Inv(s) && Neutral(e) && !e.OutsideBurn?
    requires t == s.(balances := t.balances, log := Then(s.log, e))
    requires forall mint :: t.Balance(PoolPurse(mint)) - s.Balance(PoolPurse(mint)) == Amount(e, GiftsTo(PoolPurse(mint)))
    ensures Inv(t)
    ensures SeriesBooks(s) ==> SeriesBooks(t)
  {
    hide Inv, SeriesBooks;
    NeutralStep(s, t, e);
    if SeriesBooks(s) { IdleBooks(s, t); }
  }

  lemma FillOrderPools(s: System, a: Order, split: Split)
    requires Inv(s) && FillOrder(s, a, split).Ok?
    requires a.accounts.userCollateral.owner.Wallet? && PurseOf(a.accounts.settlerOtoken) == CustodyPurse(a.otoken)
    requires a.accounts.mmPremium.owner.Wallet? && a.accounts.userPremium.owner.Wallet?
    ensures Inv(FillOrder(s, a, split).value)
    ensures SeriesBooks(s) ==> SeriesBooks(FillOrder(s, a, split).value)
  {
    hide Inv, SeriesBooks, WriteOption, PayPremium;
    WriteOptionPools(s, a);
    var written := WriteOption(s, a).value;
    var attributed := Attribute(written, OrderVault(s), a.maker, a.otoken, a.amount).value;
    RecordsOnly(written, attributed);
    PayPremiumEffect(attributed, a, split);
    var t := FillOrder(s, a, split).value;
    var paid := PayPremium(attributed, a, split).value;
    assert forall p :: t.Balance(p) == paid.Balance(p);
    NeutralPools(attributed, t, t.log.event);
  }

  lemma OrderPools(s: System, a: Order)
    requires Inv(s) && ExecuteOrder(s, a).Ok?
    ensures Inv(ExecuteOrder(s, a).value)
    ensures SeriesBooks(s) ==> SeriesBooks(ExecuteOrder(s, a).value)
  {
    hide Inv, SeriesBooks, FillOrder, CheckOrder;
    CheckedAccounts(s, a);
    var fill := UpdateFill(FillOf(s, a.Fill()), a.amount, a.maxAmount).value;
    var split := ComputePremiumSplit(a.amount, a.bidPrice, s.settler.feeBps).value;
    var filled := s.(fills := s.fills[a.Fill() := fill]);
    RecordsOnly(s, filled);
    FillOrderPools(filled, a, split);
  }

  // ---------------------------------------------------------------- redemptions

  /** A redemption followed by one neutral event that moves no pool. */
  lemma SpentPools(s: System, t: System, otoken: Key, amount: u64, payout: nat)
    requires Inv(s) && otoken in s.series && s.series[otoken].price > 0
    requires s.series[otoken].Payout(amount) == Ok(payout) && amount <= s.Supply(otoken)
    requires t == s.(custody := t.custody, attributions := t.attributions, balances := t.balances,
                     supply := s.supply[otoken := s.Supply(otoken) - amount], log := t.log)
    requires t.log.Then? && t.log.before == Then(s.log, Event.Redeemed(otoken, amount, payout))
    requires t.log.event.MMRedeemed? || t.log.event.PhysicalDelivery?
    requires forall mint :: t.Balance(PoolPurse(mint)) - s.Balance(PoolPurse(mint))
                            == -(if s.series[otoken].collateralMint == mint then payout else 0)
    ensures Inv(t)
    ensures SeriesBooks(s) ==> SeriesBooks(t)
  {
    hide GetPayout, Inv, SeriesBooks;
    InvSeriesOk(s, otoken);
    var mid := t.(log := t.log.before);
    assert forall p :: mid.Balance(p) == t.Balance(p);
    SpentMiddle(s, mid, otoken, amount, payout);
    NeutralPools(mid, t, t.log.event);
  }

  lemma SpentMiddle(s: System, mid: System, otoken: Key, amount: u64, payout: nat)
    requires Inv(s) && otoken in s.series && s.series[otoken].price > 0
    requires s.series[otoken].decimals <= 18
    requires s.series[otoken].Payout(amount) == Ok(payout) && amount <= s.Supply(otoken)
    requires mid == s.(custody := mid.custody, attributions := mid.attributions, balances := mid.balances,
                       supply := s.supply[otoken := s.Supply(otoken) - amount],
                       log := Then(s.log, Event.Redeemed(otoken, amount, payout)))
    requires forall mint :: mid.Balance(PoolPurse(mint)) - s.Balance(PoolPurse(mint))
                            == -(if s.series[otoken].collateralMint == mint then payout else 0)
    ensures Inv(mid)
    ensures SeriesBooks(s) ==> SeriesBooks(mid)
  {
    hide GetPayout, Inv, SeriesBooks;
    RedemptionKeeps(s, mid, otoken, amount, payout);
    if SeriesBooks(s) {
      RedeemedBooks(s, mid, otoken, amount, payout);
    }
  }

  lemma CashPools(s: System, t: System, c: CustodyKey, amount: u64, credited: nat)
    requires Inv(s) && CashedOut(s, t, c, amount, credited)
    ensures Inv(t)
    ensures SeriesBooks(s) ==> SeriesBooks(t)
  {
    hide GetPayout, Inv, SeriesBooks;
    SpentPools(s, t, c.otoken, amount, s.series[c.otoken].Payout(amount).value);
  }

  lemma DeliveryPools(s: System, t: System, d: Delivery)
    requires Inv(s) && Delivered(s, t, d)
    ensures Inv(t)
    ensures SeriesBooks(s) ==> SeriesBooks(t)
  {
    hide GetPayout, Inv, SeriesBooks;
    SpentPools(s, t, d.custody.otoken, d.amount, s.series[d.custody.otoken].Payout(d.amount).value);
  }

  // ---------------------------------------------------------------- emergency exit

  lemma BurnLegKeeps(s: System, k: VaultKey, settlerOtoken: Account)
    requires Inv(s) && k in s.attributions && CustodyKey(s.attributions[k].maker, s.attributions[k].otoken) in s.custody
    requires BurnAmount(s, k) > 0 ==> Burn(s, SettlerPda, settlerOtoken, BurnAmount(s, k)).Ok?
    requires Burned(s, BurnLeg(s, k, settlerOtoken), k)
    ensures Inv(BurnLeg(s, k, settlerOtoken))
  {
    hide Inv, BurnLeg, BurnAmount;
    var t := BurnLeg(s, k, settlerOtoken);
    assert VaultIds(s) by { InvVaultIds(s); }
    QuietStep(s, t);
  }

  lemma ExitPools(s: System, beneficiary: Key, k: VaultKey, maker: Key, otoken: Key, settlerOtoken: Account,
                  pool: Account, to: Account, credited: nat)
    requires Inv(s) && EmergencyWithdraw(s, beneficiary, k, maker, otoken, settlerOtoken, pool, to, credited).Ok?
    ensures Inv(EmergencyWithdraw(s, beneficiary, k, maker, otoken, settlerOtoken, pool, to, credited).value)
  {
    hide Inv, EmergencyWithdraw, BurnLeg, Burned, Controller.EmergencyWithdrawVault;
    EmergencyWithdrawEffect(s, beneficiary, k, maker, otoken, settlerOtoken, pool, to, credited);
    BurnLegKeeps(s, k, settlerOtoken);
    EmergencyKeeps(BurnLeg(s, k, settlerOtoken), SettlerPda, k.id, pool, to, credited);
  }

  /** The exit as a step on its vault, with what it takes out of the supply. */
  lemma ExitRescues(s: System, beneficiary: Key, k: VaultKey, maker: Key, otoken: Key, settlerOtoken: Account,
                    pool: Account, to: Account, credited: nat)
    requires AttributionsOk(s) && EmergencyWithdraw(s, beneficiary, k, maker, otoken, settlerOtoken, pool, to, credited).Ok?
    ensures var t := EmergencyWithdraw(s, beneficiary, k, maker, otoken, settlerOtoken, pool, to, credited).value;
            && t.log.Then? && t.log.event.Withdrawn? && OnVault(s, t, k, t.log.event)
            && k in s.vaults && !s.vaults[k].settled && s.vaults[k].short > 0 && t.vaults[k] == s.vaults[k].(settled := true)
            && forall o :: t.Supply(o) == s.Supply(o) - (if o == s.vaults[k].otoken then BurnAmount(s, k) else 0)
  {
    hide EmergencyWithdraw, BurnLeg, BurnAmount, Burn, Controller.EmergencyWithdrawVault, TrailOf;
    EmergencyWithdrawEffect(s, beneficiary, k, maker, otoken, settlerOtoken, pool, to, credited);
    EmergencyMoves(BurnLeg(s, k, settlerOtoken), SettlerPda, k.id, pool, to, credited);
    assert Attributed(s.vaults[k], s.attributions[k], s.series, TrailOf(s.log, k));
    var b, t := BurnLeg(s, k, settlerOtoken), EmergencyWithdraw(s, beneficiary, k, maker, otoken, settlerOtoken, pool, to, credited).value;
    assert forall o :: t.Supply(o) == b.Supply(o);
  }

  /** A rescue keeps the oToken books exactly when it burns as much as the vault
      was short of. */
  lemma RescueBooks(s: System, t: System, k: VaultKey, e: Event, burned: nat)
    requires Inv(s) && SeriesBooks(s) && OnVault(s, t, k, e) && e.Withdrawn?
    requires k in s.vaults && !s.vaults[k].settled && t.vaults[k] == s.vaults[k].(settled := true)
    requires forall o :: t.Supply(o) == s.Supply(o) - (if o == s.vaults[k].otoken then burned else 0)
    requires s.vaults[k].short == 0 ==> burned == 0
    ensures SeriesBooks(t) <==> burned == s.vaults[k].short
  {
    hide FairlyPaid;
    RescuedShort(s, t, k, e);
    if burned == s.vaults[k].short {
      VaultStepBooks(s, t, k, e);
    } else {
      Unbalanced(s, t, k, e, burned);
    }
  }

  lemma RescuedShort(s: System, t: System, k: VaultKey, e: Event)
    requires Inv(s) && OnVault(s, t, k, e) && e.Withdrawn? && k in s.vaults && !s.vaults[k].settled
    ensures forall o :: LiveShort(t, k, o) == 0
    ensures forall o :: LiveShort(s, k, o) == if o == s.vaults[k].otoken then s.vaults[k].short else 0
    ensures s.vaults[k].short > 0 ==> s.vaults[k].otoken in s.series
  {
    assert Sound(s.vaults[k], s.series, FlowsOf(s.log, k));
    assert Total(t.log, RescuesOf(k)) > 0;
  }

  // ---------------------------------------------------------------- exits and solvency

  /** What a series adds to the slack of its pool. */
  ghost function Net(s: System, q: Forecast, otoken: Key): int
    requires otoken in s.series
  {
    Excess(s, q, otoken) - LossAt(s, q, otoken)
  }

  ghost function NetMap(s: System, q: Forecast, mint: Key): map<Key, int> {
    map o | o in s.series :: if s.series[o].collateralMint == mint then Net(s, q, o) else 0
  }

  lemma SlackIsNet(s: System, q: Forecast, mint: Key)
    ensures Slack(s, q, mint) == MapSum(NetMap(s, q, mint)) + Total(s.log, GiftsTo(PoolPurse(mint)))
  {
    hide Excess, LossAt;
    SumAdd(NetMap(s, q, mint), LossAtMap(s, q, mint), ExcessMap(s, q, mint));
  }

  /** The shorts of a series rounded one by one, less what is outstanding and what
      was paid. */
  lemma NetIsFloors(s: System, q: Forecast, otoken: Key)
    requires otoken in s.series
    ensures var o := s.series[otoken];
            Net(s, q, otoken)
            == (if InTheMoney(o.strike, PriceOf(s, q, otoken), o.isPut)
                then MapSum(Floors(ShortMap(s, otoken), Numerator(o), Denominator(o))) - o.Worth(s.Supply(otoken)) else 0)
               - Total(s.log, PaidFor(otoken))
  {
    hide Payoff.Worth, Loss;
    LossBounds(s, otoken);
  }

  /** Series other than the exiting vault's keep their net. */
  lemma ExitElsewhere(s: System, t: System, k: VaultKey, e: Event, q: Forecast, o: Key)
    requires OnVault(s, t, k, e) && k in s.vaults && o in s.series && s.vaults[k].otoken != o && t.vaults[k].otoken != o
    requires t.Supply(o) == s.Supply(o)
    ensures Net(t, q, o) == Net(s, q, o)
  {
    assert ShortMap(t, o) == ShortMap(s, o);
    assert PaymentsOf(t.log, o) == PaymentsOf(s.log, o);
  }

  /** The exiting vault's share leaves the sum of the floors. */
  lemma ExitFloors(s: System, t: System, k: VaultKey, e: Event)
    requires Inv(s) && OnVault(s, t, k, e) && e.Withdrawn? && k in s.vaults && !s.vaults[k].settled
    requires s.vaults[k].otoken in s.series
    ensures var otoken, o := s.vaults[k].otoken, s.series[s.vaults[k].otoken];
            MapSum(Floors(ShortMap(t, otoken), Numerator(o), Denominator(o)))
            == MapSum(Floors(ShortMap(s, otoken), Numerator(o), Denominator(o))) - o.Worth(s.vaults[k].short)
  {
    hide Inv, Numerator, LiveShort;
    var otoken, o := s.vaults[k].otoken, s.series[s.vaults[k].otoken];
    RescuedShort(s, t, k, e);
    var before, after := Floors(ShortMap(s, otoken), Numerator(o), Denominator(o)), Floors(ShortMap(t, otoken), Numerator(o), Denominator(o));
    WorthIsDivision(o, s.vaults[k].short);
    WorthIsDivision(o, 0);
    WorthOfNothing(o);
    forall j | j in s.vaults && j != k ensures LiveShort(t, j, otoken) == LiveShort(s, j, otoken) {
      OtherShort(s, t, k, e, j, otoken);
    }
    SumDiffer(after, before, k, -before[k]);
  }

  lemma OtherShort(s: System, t: System, k: VaultKey, e: Event, j: VaultKey, otoken: Key)
    requires OnVault(s, t, k, e) && j != k
    ensures LiveShort(t, j, otoken) == LiveShort(s, j, otoken)
  {
  }

  /** What the series of an exiting vault loses: the worth of the short, less what
      the burn took off the outstanding oTokens. */
  ghost function ExitCost(s: System, q: Forecast, k: VaultKey, burned: nat): int
    requires k in s.vaults && burned <= s.Supply(s.vaults[k].otoken)
  {
    var o := s.vaults[k].otoken;
    DueAt(s, q, o, s.vaults[k].short) - (DueAt(s, q, o, s.Supply(o)) - DueAt(s, q, o, s.Supply(o) - burned))
  }

  lemma ExitHere(s: System, t: System, k: VaultKey, e: Event, burned: nat, q: Forecast)
    requires Inv(s) && OnVault(s, t, k, e) && e.Withdrawn? && k in s.vaults && !s.vaults[k].settled
    requires s.vaults[k].otoken in s.series && burned <= s.Supply(s.vaults[k].otoken)
    requires t.Supply(s.vaults[k].otoken) == s.Supply(s.vaults[k].otoken) - burned
    ensures Net(t, q, s.vaults[k].otoken) == Net(s, q, s.vaults[k].otoken) - ExitCost(s, q, k, burned)
  {
    hide Inv, Net, Payoff.Worth, InTheMoney;
    var o := s.vaults[k].otoken;
    NetIsFloors(s, q, o);
    NetIsFloors(t, q, o);
    ExitFloors(s, t, k, e);
    assert PriceOf(t, q, o) == PriceOf(s, q, o);
    assert Total(t.log, PaidFor(o)) == Total(s.log, PaidFor(o));
  }

  /** What an emergency exit costs the pool, to the unit. */
  lemma ExitSlack(s: System, t: System, k: VaultKey, e: Event, burned: nat, q: Forecast)
    requires Inv(s) && OnVault(s, t, k, e) && e.Withdrawn? && k in s.vaults && !s.vaults[k].settled
    requires t.vaults[k] == s.vaults[k].(settled := true)
    requires s.vaults[k].otoken in s.series && burned <= s.Supply(s.vaults[k].otoken)
    requires forall o :: t.Supply(o) == s.Supply(o) - (if o == s.vaults[k].otoken then burned else 0)
    ensures var mint := s.vaults[k].collateralMint;
            Slack(t, q, mint) == Slack(s, q, mint) - ExitCost(s, q, k, burned) + Amount(e, GiftsTo(PoolPurse(mint)))
  {
    hide Inv, Net, Slack, ExitCost;
    var o, mint := s.vaults[k].otoken, s.vaults[k].collateralMint;
    var before, after := NetMap(s, q, mint), NetMap(t, q, mint);
    assert s.series[o].collateralMint == mint by {
      InvVault(s, k);
      InvSeriesOk(s, o);
    }
    ExitHere(s, t, k, e, burned, q);
    forall j | j in s.series && j != o ensures after[j] == before[j] {
      ExitElsewhere(s, t, k, e, q, j);
    }
    SumDiffer(after, before, o, -ExitCost(s, q, k, burned));
    SlackIsNet(s, q, mint);
    SlackIsNet(t, q, mint);
  }

  lemma Unbalanced(s: System, t: System, k: VaultKey, e: Event, burned: nat)
    requires SeriesBooks(s) && OnVault(s, t, k, e) && k in s.vaults && s.vaults[k].otoken in s.series
    requires LiveShort(t, k, s.vaults[k].otoken) == 0 && LiveShort(s, k, s.vaults[k].otoken) == s.vaults[k].short
    requires t.Supply(s.vaults[k].otoken) == s.Supply(s.vaults[k].otoken) - burned && burned != s.vaults[k].short
    ensures !SeriesBooks(t)
  {
    hide FairlyPaid;
    var o := s.vaults[k].otoken;
    VaultStepBook(s, t, k, e, o);
    assert Accounted(s.series[o], BookOf(s, o), PaymentsOf(s.log, o));
    assert !Accounted(t.series[o], BookOf(t, o), PaymentsOf(t.log, o));
  }

  /** Before a series has its price, the emergency exit of any of its attributed
      vaults burns exactly the vault's whole short. */
  lemma ExitBurnsShort(s: System, k: VaultKey)
    requires Inv(s) && SettlerInv(s)
    requires k in s.attributions && !s.vaults[k].settled && !Priced(s.series, s.vaults[k].otoken)
    ensures BurnAmount(s, k) == s.vaults[k].short
  {
    var mm := s.attributions[k];
    var c := CustodyKey(mm.maker, mm.otoken);
    assert Attributed(s.vaults[k], mm, s.series, TrailOf(s.log, k));
    assert Sound(s.vaults[k], s.series, FlowsOf(s.log, k));
    assert DriftOk(s, c);
    RemainingAtLeast(s, c, k);
  }
}
