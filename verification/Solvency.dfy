/** The oToken side of the pools, and solvency. */
module Solvency {
  import opened Wrappers
  import opened Ints
  import opened Payoff
  import opened Sums
  import opened FloorSums
  import opened Model
  import opened Tokens
  import opened Controller
  import opened PoolBooks

  /** What a vault that was not rescued is short of `otoken`. */
  ghost function LiveShort(s: System, k: VaultKey, otoken: Key): int {
    if k in s.vaults && s.vaults[k].otoken == otoken && !Rescued(s, k) then s.vaults[k].short else 0
  }

  ghost function ShortMap(s: System, otoken: Key): map<VaultKey, int> {
    map k | k in s.vaults :: LiveShort(s, k, otoken)
  }

  /** All oTokens written by vaults that were not rescued. */
  ghost function Written(s: System, otoken: Key): nat {
    ShortsNonNeg(s, otoken);
    MapSum(ShortMap(s, otoken))
  }

  lemma ShortsNonNeg(s: System, otoken: Key)
    ensures 0 <= MapSum(ShortMap(s, otoken))
  {
    var zeros := map k | k in s.vaults :: 0;
    SumZero(zeros);
    SumMono(zeros, ShortMap(s, otoken));
  }

  /** Number of vaults with an open or settled short in `otoken`. */
  ghost function Writers(s: System, otoken: Key): int {
    MapSum(Support(ShortMap(s, otoken)))
  }

  /** Redeemers were paid what their total is worth, less at most one unit for
      each redemption after the first. */
  ghost predicate FairlyPaid(o: Series, p: Payments) {
    && Due(o, p.redeemed) - Spare(p.times) <= p.paid <= Due(o, p.redeemed)
    && (o.Exact() ==> p.paid == Due(o, p.redeemed))
    && (p.times == 0 ==> p.redeemed == 0)
  }

  /** The oTokens of one series: outstanding, burned by holders, written. */
  datatype Book = Book(supply: nat, burned: nat, written: nat)

  ghost function BookOf(s: System, otoken: Key): Book {
    Book(s.Supply(otoken), Total(s.log, BurnedOutside(otoken)), Written(s, otoken))
  }

  /** Every oToken written is outstanding, redeemed, or was burned by a holder. */
  ghost predicate Accounted(o: Series, b: Book, p: Payments) {
    b.supply + p.redeemed + b.burned == b.written && FairlyPaid(o, p)
  }

  ghost predicate SeriesBooks(s: System) {
    && (forall o | o in s.series :: Accounted(s.series[o], BookOf(s, o), PaymentsOf(s.log, o)))
    && (forall o | o !in s.series :: Total(s.log, BurnedOutside(o)) == 0)
  }

  // ---------------------------------------------------------------- steps

  lemma VaultStepWritten(s: System, t: System, k: VaultKey, e: Event, otoken: Key)
    requires OnVault(s, t, k, e)
    ensures Written(t, otoken) == Written(s, otoken) + LiveShort(t, k, otoken) - LiveShort(s, k, otoken)
  {
    assert ShortMap(t, otoken) == ShortMap(s, otoken)[k := LiveShort(t, k, otoken)];
    SumUpdate(ShortMap(s, otoken), k, LiveShort(t, k, otoken));
  }

  /** The book of a series after a step on one vault. */
  lemma VaultStepBook(s: System, t: System, k: VaultKey, e: Event, otoken: Key)
    requires OnVault(s, t, k, e)
    ensures Written(t, otoken) == Written(s, otoken) + LiveShort(t, k, otoken) - LiveShort(s, k, otoken)
    ensures BookOf(t, otoken) == BookOf(s, otoken).(supply := t.Supply(otoken), written := Written(t, otoken))
    ensures PaymentsOf(t.log, otoken) == PaymentsOf(s.log, otoken)
  {
    hide Written, LiveShort;
    VaultStepWritten(s, t, k, e, otoken);
  }

  /** A step on one vault keeps the oToken books when the supply follows the
      live short. */
  lemma VaultStepBooks(s: System, t: System, k: VaultKey, e: Event)
    requires SeriesBooks(s) && OnVault(s, t, k, e)
    requires forall o | o in s.series :: t.Supply(o) - s.Supply(o) == LiveShort(t, k, o) - LiveShort(s, k, o)
    ensures SeriesBooks(t)
  {
    forall o ensures o in t.series ==> Accounted(t.series[o], BookOf(t, o), PaymentsOf(t.log, o))
             ensures o !in t.series ==> Total(t.log, BurnedOutside(o)) == 0
    {
      VaultStepBook(s, t, k, e, o);
    }
  }

  /** Steps that touch no vault and emit nothing about redemptions or burns. */
  lemma IdleBook(s: System, t: System, otoken: Key)
    requires t.vaults == s.vaults
    requires t.log == s.log || (t.log.Then? && t.log.before == s.log && Neutral(t.log.event) && !t.log.event.OutsideBurn?)
    ensures BookOf(t, otoken) == BookOf(s, otoken).(supply := t.Supply(otoken))
    ensures PaymentsOf(t.log, otoken) == PaymentsOf(s.log, otoken)
  {
    assert ShortMap(t, otoken) == ShortMap(s, otoken);
  }

  lemma IdleBooks(s: System, t: System)
    requires SeriesBooks(s)
    requires t.vaults == s.vaults && t.series == s.series
    requires t.log == s.log || (t.log.Then? && t.log.before == s.log && Neutral(t.log.event) && !t.log.event.OutsideBurn?)
    requires forall o | o in s.series :: t.Supply(o) == s.Supply(o)
    ensures SeriesBooks(t)
  {
    forall o ensures o in t.series ==> Accounted(t.series[o], BookOf(t, o), PaymentsOf(t.log, o))
             ensures o !in t.series ==> Total(t.log, BurnedOutside(o)) == 0
    {
      IdleBook(s, t, o);
    }
  }

  /** The books after a redemption of `otoken`, or a burn by its holder. */
  lemma SpentBook(s: System, t: System, e: Event, o: Key)
    requires t.vaults == s.vaults && t.log == Then(s.log, e) && (e.Redeemed? || e.OutsideBurn?)
    ensures var b, p := BookOf(s, o), PaymentsOf(s.log, o);
            && BookOf(t, o) == Book(t.Supply(o), b.burned + (if e.OutsideBurn? && e.otoken == o then e.amount else 0), b.written)
            && PaymentsOf(t.log, o)
               == if e.Redeemed? && e.otoken == o then Payments(p.redeemed + e.amount, p.times + 1, p.paid + e.payout) else p
  {
    assert ShortMap(t, o) == ShortMap(s, o);
  }

  lemma OpenVaultBooks(s: System, owner: Holder, mint: Key, beneficiary: Holder)
    requires Inv(s) && SeriesBooks(s) && OpenVault(s, owner, mint, beneficiary).Ok?
    ensures SeriesBooks(OpenVault(s, owner, mint, beneficiary).value)
  {
    var k := VaultKey(owner, s.counters[owner]);
    VaultStepBooks(s, OpenVault(s, owner, mint, beneficiary).value, k, VaultOpened(k));
  }

  lemma DepositSupply(s: System, owner: Holder, id: nat, from: Account, pool: Account, amount: u64, credited: nat)
    requires Deposit(s, owner, id, from, pool, amount, credited).Ok?
    ensures Deposit(s, owner, id, from, pool, amount, credited).value.supply == s.supply && VaultKey(owner, id) in s.vaults
  {
  }

  lemma DepositBooks(s: System, owner: Holder, id: nat, from: Account, pool: Account, amount: u64, credited: nat)
    requires SeriesBooks(s) && Deposit(s, owner, id, from, pool, amount, credited).Ok?
    requires !from.owner.PoolAuthority?
    ensures SeriesBooks(Deposit(s, owner, id, from, pool, amount, credited).value)
  {
    hide SeriesBooks, PoolsFollow, Controller.Deposit;
    DepositEffect(s, owner, id, from, pool, amount, credited);
    DepositSupply(s, owner, id, from, pool, amount, credited);
    VaultStepBooks(s, Deposit(s, owner, id, from, pool, amount, credited).value, VaultKey(owner, id),
                   CollateralDeposited(VaultKey(owner, id), amount));
  }

  /** Minting writes exactly what it adds to the supply; the vault was not rescued. */
  lemma MintedShort(s: System, t: System, k: VaultKey, otoken: Key, amount: nat, to: Purse)
    requires VaultsOk(s) && OnVault(s, t, k, OTokenMinted(k, otoken, amount, to))
    requires k in s.vaults && !s.vaults[k].settled && s.vaults[k].otoken in {0, otoken} && otoken != 0
    requires s.vaults[k].short + amount <= U64_MAX
    requires t.vaults[k] == s.vaults[k].(otoken := otoken, short := s.vaults[k].short + amount)
    ensures forall o | o != 0 :: LiveShort(t, k, o) - LiveShort(s, k, o) == if o == otoken then amount else 0
  {
    hide Payoff.Worth;
    assert Sound(s.vaults[k], s.series, FlowsOf(s.log, k));
    assert Total(t.log, RescuesOf(k)) == 0;
  }

  lemma MintBooks(s: System, owner: Holder, id: nat, otoken: Key, to: Account, amount: u64)
    requires Inv(s) && SeriesBooks(s) && Mint(s, owner, id, otoken, to, amount).Ok?
    requires owner == SettlerPda ==> PurseOf(to) == CustodyPurse(otoken)
    ensures SeriesBooks(Mint(s, owner, id, otoken, to, amount).value)
  {
    hide SeriesBooks, GetRequiredCollateral, PoolsFollow, Controller.Mint, LiveShort, Balanced, VaultIds, Sound;
    var t := Mint(s, owner, id, otoken, to, amount).value;
    var k := VaultKey(owner, id);
    MintEffect(s, owner, id, otoken, to, amount);
    MintMoves(s, owner, id, otoken, to, amount);
    MintedShort(s, t, k, otoken, amount, PurseOf(to));
    VaultStepBooks(s, t, k, OTokenMinted(k, otoken, amount, PurseOf(to)));
  }

  lemma SettleBooks(s: System, signer: Key, owner: Holder, id: nat, pool: Account, to: Account, credited: nat)
    requires SeriesBooks(s) && Settle(s, signer, owner, id, pool, to, credited).Ok?
    ensures SeriesBooks(Settle(s, signer, owner, id, pool, to, credited).value)
  {
    hide SeriesBooks, GetPayout, PoolsFollow, Controller.Settle;
    SettleMoves(s, signer, owner, id, pool, to, credited);
    var t := Settle(s, signer, owner, id, pool, to, credited).value;
    SettleEffect(s, signer, owner, id, pool, to, credited);
    VaultStepBooks(s, t, VaultKey(owner, id), t.log.event);
  }

  /** One more redemption keeps the payments fair: worth is superadditive, and
      subadditive up to one unit. */
  lemma RedemptionFair(o: Series, p: Payments, amount: u64)
    requires FairlyPaid(o, p) && o.decimals <= 18 && o.Payout(amount).Ok?
    ensures FairlyPaid(o, Payments(p.redeemed + amount, p.times + 1, p.paid + o.Payout(amount).value))
  {
    RequirementIsExact(o, amount);
    WorthAdd(o.strike, o.isPut, o.decimals, p.redeemed, amount);
    if p.times == 0 {
      WorthOfNothing(o);
    }
  }

  lemma WorthOfNothing(o: Series)
    ensures o.Worth(0) == 0
  {
    var n, d := Num(o.strike, o.isPut, o.decimals), Den(o.isPut, o.decimals);
    assert 0 * n == 0;
  }

  lemma RedeemBooks(s: System, redeemer: Holder, otoken: Key, from: Account, to: Account, pool: Account, amount: u64, credited: nat)
    requires Inv(s) && SeriesBooks(s) && Redeem(s, redeemer, otoken, from, to, pool, amount, credited).Ok?
    requires !redeemer.PoolAuthority?
    ensures SeriesBooks(Redeem(s, redeemer, otoken, from, to, pool, amount, credited).value)
  {
    hide Inv, SeriesBooks, Controller.Redeem, GetPayout;
    var t := Redeem(s, redeemer, otoken, from, to, pool, amount, credited).value;
    RedeemEffect(s, redeemer, otoken, from, to, pool, amount, credited);
    InvSeriesOk(s, otoken);
    RedeemedBooks(s, t, otoken, amount, s.series[otoken].Payout(amount).value);
  }

  lemma RedeemedBooks(s: System, t: System, otoken: Key, amount: u64, payout: nat)
    requires SeriesBooks(s) && otoken in s.series && s.series[otoken].decimals <= 18
    requires s.series[otoken].Payout(amount) == Ok(payout) && amount <= s.Supply(otoken)
    requires t.vaults == s.vaults && t.series == s.series
    requires forall o :: t.Supply(o) == s.Supply(o) - (if o == otoken then amount else 0)
    requires t.log == Then(s.log, Redeemed(otoken, amount, payout))
    ensures SeriesBooks(t)
  {
    hide GetPayout, FairlyPaid, Written, Total, PaymentsOf, Pow10, InTheMoney;
    RedemptionFair(s.series[otoken], PaymentsOf(s.log, otoken), amount);
    forall o ensures o in t.series ==> Accounted(t.series[o], BookOf(t, o), PaymentsOf(t.log, o))
             ensures o !in t.series ==> Total(t.log, BurnedOutside(o)) == 0
    {
      SpentBook(s, t, t.log.event, o);
    }
  }

  /** The series that was registered or priced has no payments yet. */
  lemma AdvancedAccounted(s: System, t: System, otoken: Key)
    requires VaultsOk(s) && SeriesBooks(s) && SeriesAdvance(s, t, otoken)
    requires PaymentsOf(s.log, otoken) == Payments(0, 0, 0)
    requires otoken !in s.series ==> s.Supply(otoken) == 0
    ensures Accounted(t.series[otoken], BookOf(t, otoken), PaymentsOf(t.log, otoken))
  {
    hide Payoff.Worth, VaultsOk, Total, Written;
    WorthOfNothing(t.series[otoken]);
    IdleBook(s, t, otoken);
    if otoken !in s.series {
      NobodyShort(s, otoken);
      assert Written(s, otoken) == 0 by { NothingWritten(s, otoken); }
    }
  }

  lemma NothingWritten(s: System, otoken: Key)
    requires MapSum(ShortMap(s, otoken)) == 0
    ensures Written(s, otoken) == 0
  {
  }

  lemma SeriesAdvanceBooks(s: System, t: System, otoken: Key)
    requires Inv(s) && SeriesBooks(s) && SeriesAdvance(s, t, otoken)
    requires otoken !in s.series ==> s.Supply(otoken) == 0
    ensures SeriesBooks(t)
  {
    hide Balanced, VaultIds, VaultsOk, FairlyPaid, Accounted, Written, Total, PaymentsOf, BookOf;
    assert PaymentsOf(s.log, otoken) == Payments(0, 0, 0);
    AdvancedAccounted(s, t, otoken);
    forall o ensures o in t.series ==> Accounted(t.series[o], BookOf(t, o), PaymentsOf(t.log, o))
             ensures o !in t.series ==> Total(t.log, BurnedOutside(o)) == 0
    {
      if o != otoken {
        IdleBook(s, t, o);
        assert BookOf(t, o) == BookOf(s, o).(supply := t.Supply(o));
        assert t.Supply(o) == s.Supply(o);
        assert BookOf(s, o).supply == s.Supply(o) by { SupplyOfBook(s, o); }
      }
    }
  }

  lemma SupplyOfBook(s: System, otoken: Key)
    ensures BookOf(s, otoken).supply == s.Supply(otoken)
  {
  }

  lemma NobodyShort(s: System, otoken: Key)
    requires VaultsOk(s) && otoken !in s.series
    ensures MapSum(ShortMap(s, otoken)) == 0
  {
    forall k | k in s.vaults ensures LiveShort(s, k, otoken) == 0 {
      assert Sound(s.vaults[k], s.series, FlowsOf(s.log, k));
    }
    SumZero(ShortMap(s, otoken));
  }

  lemma OutsideBurnBooks(s: System, t: System, otoken: Key, amount: nat)
    requires SeriesBooks(s) && otoken in s.series && amount <= s.Supply(otoken)
    requires t.vaults == s.vaults && t.series == s.series && t.log == Then(s.log, OutsideBurn(otoken, amount))
    requires forall o :: t.Supply(o) == s.Supply(o) - (if o == otoken then amount else 0)
    ensures SeriesBooks(t)
  {
    forall o ensures o in t.series ==> Accounted(t.series[o], BookOf(t, o), PaymentsOf(t.log, o))
             ensures o !in t.series ==> Total(t.log, BurnedOutside(o)) == 0
    {
      SpentBook(s, t, t.log.event, o);
    }
  }

  // ---------------------------------------------------------------- solvency

  /** Prices series will expire at, for those that have none yet. */
  type Forecast = Key -> nat

  ghost function PriceOf(s: System, q: Forecast, otoken: Key): nat
    requires otoken in s.series
  {
    if s.series[otoken].price > 0 then s.series[otoken].price else q(otoken)
  }

  /** What `amount` of a series pays at its price, recorded or forecast. */
  ghost function DueAt(s: System, q: Forecast, otoken: Key, amount: nat): nat {
    if otoken in s.series && InTheMoney(s.series[otoken].strike, PriceOf(s, q, otoken), s.series[otoken].isPut)
    then s.series[otoken].Worth(amount) else 0
  }

  /** What each unsettled vault on `mint` will take back. */
  ghost function ClaimMap(s: System, q: Forecast, mint: Key): map<VaultKey, int> {
    map k | k in s.vaults ::
      var v := s.vaults[k];
      if v.collateralMint == mint && !v.settled then v.collateral - DueAt(s, q, v.otoken, v.short) else 0
  }

  /** What the outstanding supply of each series on `mint` redeems for. */
  ghost function OwedMap(s: System, q: Forecast, mint: Key): map<Key, int> {
    map o | o in s.series :: if s.series[o].collateralMint == mint then DueAt(s, q, o, s.Supply(o)) else 0
  }

  /** Collateral that rounding each vault down on its own loses against
      rounding the whole series once. */
  ghost function Loss(s: System, otoken: Key): int
    requires otoken in s.series
  {
    var o := s.series[otoken];
    var d := Den(o.isPut, o.decimals);
    MapSum(Remainders(ShortMap(s, otoken), Num(o.strike, o.isPut, o.decimals), d)) / d
  }

  ghost function LossMap(s: System, mint: Key): map<Key, int> {
    map o | o in s.series :: if s.series[o].collateralMint == mint then Loss(s, o) else 0
  }

  /** One unit for each writer after the first, unless the series is exact. */
  ghost function DustMap(s: System, mint: Key): map<Key, int> {
    map o | o in s.series ::
      if s.series[o].collateralMint == mint && !s.series[o].Exact() then Spare(Writers(s, o)) else 0
  }

  /** The pool, topped up by the rounding loss, covers every vault's claim and
      the whole outstanding supply, at any prices still to be set. */
  ghost predicate Solvent(s: System, q: Forecast, mint: Key) {
    MapSum(ClaimMap(s, q, mint)) + MapSum(OwedMap(s, q, mint))
      <= s.Balance(PoolPurse(mint)) + MapSum(LossMap(s, mint))
  }

  /** What a vault that was not rescued pays towards its series. */
  ghost function StakeMap(s: System, q: Forecast, mint: Key): map<VaultKey, int> {
    map k | k in s.vaults ::
      var v := s.vaults[k];
      if v.collateralMint == mint && !Rescued(s, k) then DueAt(s, q, v.otoken, v.short) else 0
  }

  ghost function OTokenMap(s: System): map<VaultKey, Key> {
    map k | k in s.vaults :: s.vaults[k].otoken
  }

  lemma HeldIsClaimPlusStake(s: System, q: Forecast, mint: Key)
    requires VaultsOk(s)
    ensures MapSum(HeldMap(s, mint)) == MapSum(ClaimMap(s, q, mint)) + MapSum(StakeMap(s, q, mint))
  {
    forall k | k in s.vaults
      ensures HeldMap(s, mint)[k] == ClaimMap(s, q, mint)[k] + StakeMap(s, q, mint)[k]
    {
      assert Sound(s.vaults[k], s.series, FlowsOf(s.log, k));
    }
    SumAdd(ClaimMap(s, q, mint), StakeMap(s, q, mint), HeldMap(s, mint));
  }

  ghost function StakesOf(s: System, q: Forecast, mint: Key, otoken: Key): map<VaultKey, int> {
    Filed(StakeMap(s, q, mint), OTokenMap(s), otoken)
  }

  /** The scale of a series. */
  ghost function Numerator(o: Series): nat { Num(o.strike, o.isPut, o.decimals) }

  ghost function Denominator(o: Series): nat { Den(o.isPut, o.decimals) }

  lemma WorthIsDivision(o: Series, amount: nat)
    ensures o.Worth(amount) == amount * Numerator(o) / Denominator(o)
  {
  }

  lemma StakeOfVault(s: System, q: Forecast, mint: Key, otoken: Key, k: VaultKey)
    requires VaultsOk(s) && otoken in s.series && s.series[otoken].collateralMint == mint && k in s.vaults
    ensures StakesOf(s, q, mint, otoken)[k] == DueAt(s, q, otoken, ShortMap(s, otoken)[k])
  {
    assert Sound(s.vaults[k], s.series, FlowsOf(s.log, k));
    WorthOfNothing(s.series[otoken]);
  }

  /** The stakes of one series are its shorts rounded one by one. */
  lemma StakesAreFloors(s: System, q: Forecast, mint: Key, otoken: Key)
    requires VaultsOk(s) && otoken in s.series && s.series[otoken].collateralMint == mint
    ensures var o := s.series[otoken];
            MapSum(StakesOf(s, q, mint, otoken))
            == if InTheMoney(o.strike, PriceOf(s, q, otoken), o.isPut)
               then MapSum(Floors(ShortMap(s, otoken), Numerator(o), Denominator(o))) else 0
  {
    var o := s.series[otoken];
    var stakes, floors := StakesOf(s, q, mint, otoken), Floors(ShortMap(s, otoken), Numerator(o), Denominator(o));
    forall k | k in s.vaults
      ensures stakes[k] == if InTheMoney(o.strike, PriceOf(s, q, otoken), o.isPut) then floors[k] else 0
    {
      StakeOfVault(s, q, mint, otoken, k);
      WorthIsDivision(o, ShortMap(s, otoken)[k]);
    }
    if InTheMoney(o.strike, PriceOf(s, q, otoken), o.isPut) {
      assert stakes == floors;
    } else {
      SumZero(stakes);
    }
  }

  /** Rounding loses less than one unit for each writer of the series. */
  lemma LossBounds(s: System, otoken: Key)
    requires otoken in s.series
    ensures s.series[otoken].Worth(Written(s, otoken))
         == MapSum(Floors(ShortMap(s, otoken), Numerator(s.series[otoken]), Denominator(s.series[otoken]))) + Loss(s, otoken)
    ensures 0 <= Loss(s, otoken) <= Spare(Writers(s, otoken))
    ensures s.series[otoken].Exact() ==> Loss(s, otoken) == 0
  {
    var o := s.series[otoken];
    FloorShortfall(ShortMap(s, otoken), Numerator(o), Denominator(o));
    WorthIsDivision(o, Written(s, otoken));
    if o.Exact() { assert 0 / 1 == 0; }
  }

  /** The rounding loss of a series that ends in the money. */
  ghost function LossAt(s: System, q: Forecast, otoken: Key): int
    requires otoken in s.series
  {
    if InTheMoney(s.series[otoken].strike, PriceOf(s, q, otoken), s.series[otoken].isPut) then Loss(s, otoken) else 0
  }

  /** The stakes of one series fall short of its total worth by exactly the
      rounding loss. */
  lemma StakesOfSeries(s: System, q: Forecast, mint: Key, otoken: Key)
    requires VaultsOk(s) && otoken in s.series && s.series[otoken].collateralMint == mint
    ensures DueAt(s, q, otoken, Written(s, otoken)) == MapSum(StakesOf(s, q, mint, otoken)) + LossAt(s, q, otoken)
  {
    StakesAreFloors(s, q, mint, otoken);
    LossBounds(s, otoken);
  }

  /** Redeemers and holders of one series together are owed no more than the
      whole series is worth, at its price or, before it has one, at any. */
  lemma BookWithinWorth(o: Series, b: Book, p: Payments, price: nat)
    requires Accounted(o, b, p)
    requires if o.price == 0 then p == Payments(0, 0, 0) else price == o.price
    requires InTheMoney(o.strike, price, o.isPut)
    ensures o.Worth(b.supply) + p.paid <= o.Worth(b.written)
  {
    hide Payoff.Worth;
    WorthAdd(o.strike, o.isPut, o.decimals, b.supply, p.redeemed);
    WorthMono(o.strike, o.isPut, o.decimals, b.supply + p.redeemed, b.written);
  }

  lemma OwedWithinWorth(s: System, q: Forecast, otoken: Key)
    requires Inv(s) && SeriesBooks(s) && otoken in s.series
    ensures DueAt(s, q, otoken, s.Supply(otoken)) + Total(s.log, PaidFor(otoken)) <= DueAt(s, q, otoken, Written(s, otoken))
  {
    hide Payoff.Worth, Written, Balanced, VaultsOk, VaultIds, SeriesOk;
    var o, p, b := s.series[otoken], PaymentsOf(s.log, otoken), BookOf(s, otoken);
    assert Accounted(o, b, p);
    assert o.price == 0 ==> p == Payments(0, 0, 0);
    if InTheMoney(o.strike, PriceOf(s, q, otoken), o.isPut) {
      BookWithinWorth(o, b, p, PriceOf(s, q, otoken));
    }
  }

  ghost function StakeTotals(s: System, q: Forecast, mint: Key): map<Key, int> {
    Subtotals(StakeMap(s, q, mint), OTokenMap(s), s.series.Keys)
  }

  lemma StakesBySeries(s: System, q: Forecast, mint: Key)
    ensures MapSum(StakeMap(s, q, mint)) == MapSum(StakeTotals(s, q, mint))
  {
    SumBySubtotals(StakeMap(s, q, mint), OTokenMap(s), s.series.Keys);
  }

  lemma NoStake(s: System, q: Forecast, mint: Key, otoken: Key)
    requires VaultsOk(s) && otoken in s.series && s.series[otoken].collateralMint != mint
    ensures StakeTotals(s, q, mint)[otoken] == 0
  {
    hide Payoff.Worth;
    forall k | k in s.vaults ensures StakesOf(s, q, mint, otoken)[k] == 0 {
      WorthOfNothing(s.series[otoken]);
      assert Sound(s.vaults[k], s.series, FlowsOf(s.log, k));
    }
    SumZero(StakesOf(s, q, mint, otoken));
  }

  ghost function LossAtMap(s: System, q: Forecast, mint: Key): map<Key, int> {
    map o | o in s.series :: if s.series[o].collateralMint == mint then LossAt(s, q, o) else 0
  }

  /** What a series was written for beyond what is outstanding and was paid:
      oTokens burned by holders, and roundings of redemptions. */
  ghost function Excess(s: System, q: Forecast, otoken: Key): int {
    DueAt(s, q, otoken, Written(s, otoken)) - DueAt(s, q, otoken, s.Supply(otoken)) - Total(s.log, PaidFor(otoken))
  }

  ghost function ExcessMap(s: System, q: Forecast, mint: Key): map<Key, int> {
    map o | o in s.series :: if s.series[o].collateralMint == mint then Excess(s, q, o) else 0
  }

  lemma SeriesIdentity(s: System, q: Forecast, mint: Key, otoken: Key)
    requires VaultsOk(s) && otoken in s.series
    ensures OwedMap(s, q, mint)[otoken] + PaidMap(s, mint)[otoken] + ExcessMap(s, q, mint)[otoken]
         == StakeTotals(s, q, mint)[otoken] + LossAtMap(s, q, mint)[otoken]
  {
    hide DueAt, LossAt, Written, VaultsOk, StakesOf;
    if s.series[otoken].collateralMint == mint {
      StakesOfSeries(s, q, mint, otoken);
      assert StakesOf(s, q, mint, otoken) == Filed(StakeMap(s, q, mint), OTokenMap(s), otoken) by { StakesFiled(s, q, mint, otoken); }
    } else {
      NoStake(s, q, mint, otoken);
    }
  }

  lemma StakesFiled(s: System, q: Forecast, mint: Key, otoken: Key)
    ensures StakesOf(s, q, mint, otoken) == Filed(StakeMap(s, q, mint), OTokenMap(s), otoken)
  {
  }

  lemma {:induction false} SumsBalance<K(!new)>(a: map<K, int>, b: map<K, int>, c: map<K, int>, d: map<K, int>, e: map<K, int>)
    requires a.Keys == b.Keys == c.Keys == d.Keys == e.Keys
    requires forall k | k in a :: a[k] + b[k] + c[k] == d[k] + e[k]
    ensures MapSum(a) + MapSum(b) + MapSum(c) == MapSum(d) + MapSum(e)
    decreases |a|
  {
    if a == map[] {
      assert b == map[] && c == map[] && d == map[] && e == map[];
    } else {
      var k :| k in a;
      SumRemove(a, k);
      SumRemove(b, k);
      SumRemove(c, k);
      SumRemove(d, k);
      SumRemove(e, k);
      SumsBalance(a - {k}, b - {k}, c - {k}, d - {k}, e - {k});
    }
  }

  /** Where every unit of a pool is, at any forecast: claims, outstanding oTokens,
      excess and gifts make up the balance and the rounding loss, exactly. */
  lemma PoolIdentity(s: System, q: Forecast, mint: Key)
    requires Inv(s)
    ensures MapSum(ClaimMap(s, q, mint)) + MapSum(OwedMap(s, q, mint)) + MapSum(ExcessMap(s, q, mint))
            + Total(s.log, GiftsTo(PoolPurse(mint)))
         == s.Balance(PoolPurse(mint)) + MapSum(LossAtMap(s, q, mint))
  {
    forall o | o in s.series
      ensures OwedMap(s, q, mint)[o] + PaidMap(s, mint)[o] + ExcessMap(s, q, mint)[o]
           == StakeTotals(s, q, mint)[o] + LossAtMap(s, q, mint)[o]
    {
      SeriesIdentity(s, q, mint, o);
    }
    SumsBalance(OwedMap(s, q, mint), PaidMap(s, mint), ExcessMap(s, q, mint), StakeTotals(s, q, mint), LossAtMap(s, q, mint));
    StakesBySeries(s, q, mint);
    HeldIsClaimPlusStake(s, q, mint);
    assert Balanced(s, mint);
  }

  /** Covered to the last unit, without any allowance for rounding. */
  ghost predicate ExactlySolvent(s: System, q: Forecast, mint: Key) {
    MapSum(ClaimMap(s, q, mint)) + MapSum(OwedMap(s, q, mint)) <= s.Balance(PoolPurse(mint))
  }

  /** What a pool holds beyond claims and outstanding oTokens, at a forecast. */
  ghost function Slack(s: System, q: Forecast, mint: Key): int {
    MapSum(ExcessMap(s, q, mint)) + Total(s.log, GiftsTo(PoolPurse(mint))) - MapSum(LossAtMap(s, q, mint))
  }

  /** In every reachable state, whatever exits were taken: a pool covers everything
      exactly when rounding lost no more than the series' excess and the gifts. */
  lemma ExactlySolventIff(s: System, q: Forecast, mint: Key)
    requires Inv(s)
    ensures ExactlySolvent(s, q, mint) <==> Slack(s, q, mint) >= 0
  {
    hide Inv;
    PoolIdentity(s, q, mint);
  }

  /** Solvency: in sound books every pool covers all claims and all outstanding
      oTokens up to the rounding loss of its series, at every forecast. */
  lemma PoolsSolvent(s: System, q: Forecast, mint: Key)
    requires Inv(s) && SeriesBooks(s)
    ensures Solvent(s, q, mint)
  {
    hide Inv, SeriesBooks, DueAt, Written, Loss;
    PoolIdentity(s, q, mint);
    forall o | o in s.series ensures ExcessMap(s, q, mint)[o] >= 0 && 0 <= LossAtMap(s, q, mint)[o] <= LossMap(s, mint)[o] {
      OwedWithinWorth(s, q, o);
      LossBounds(s, o);
    }
    NonNegSum(ExcessMap(s, q, mint));
    SumMono(LossAtMap(s, q, mint), LossMap(s, mint));
  }

  lemma NonNegSum<K(!new)>(m: map<K, int>)
    requires forall k | k in m :: 0 <= m[k]
    ensures 0 <= MapSum(m)
  {
    var zeros := map k | k in m :: 0;
    SumZero(zeros);
    SumMono(zeros, m);
  }

  /** The loss a pool can carry: at most one unit for each writer after the first
      of each of its series, and none from series without a denominator. */
  lemma LossIsDust(s: System, mint: Key)
    ensures 0 <= MapSum(LossMap(s, mint)) <= MapSum(DustMap(s, mint))
  {
    forall o | o in s.series ensures 0 <= LossMap(s, mint)[o] <= DustMap(s, mint)[o] {
      LossBounds(s, o);
    }
    SumMono(LossMap(s, mint), DustMap(s, mint));
    NonNegSum(LossMap(s, mint));
  }
}
