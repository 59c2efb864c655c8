/** What every controller instruction keeps: vault numbering, per-vault cover
    and cash flow, write-once prices, and the double entry of every pool. */
module PoolBooks {
  import opened Wrappers
  import opened Ints
  import opened Payoff
  import opened Sums
  import opened Model
  import opened Tokens
  import opened Controller

  /** The vault ids of an owner are exactly those below its counter. */
  ghost predicate VaultIds(s: System) {
    forall k: VaultKey :: k in s.vaults <==> k.owner in s.counters && k.id < s.counters[k.owner]
  }

  /** What the log says about one vault: collateral in, collateral out, how
      often it was released, how often by the emergency exit. */
  datatype Flows = Flows(deposited: nat, released: nat, releases: nat, rescues: nat)

  ghost function FlowsOf(log: Log, k: VaultKey): Flows {
    Flows(Total(log, DepositedInto(k)), Total(log, ReleasedFrom(k)), Total(log, ReleasesOf(k)), Total(log, RescuesOf(k)))
  }

  /** A vault that left through the emergency exit rather than by settlement. */
  ghost predicate Rescued(s: System, k: VaultKey) {
    Total(s.log, RescuesOf(k)) > 0
  }

  /** The option leg of a vault: what it is short of, and that its collateral
      covers the worst case. */
  ghost predicate Covered(v: Vault, series: map<Key, Series>) {
    && (v.otoken == 0 <==> v.short == 0)
    && (v.otoken != 0 ==>
          && v.otoken in series
          && series[v.otoken].collateralMint == v.collateralMint
          && series[v.otoken].Priceable()
          && series[v.otoken].Worth(v.short) <= v.collateral)
  }

  /** What a series pays on `amount` at its recorded price. */
  ghost function Due(o: Series, amount: nat): nat {
    if InTheMoney(o.strike, o.price, o.isPut) then o.Worth(amount) else 0
  }

  /** The cash leg: deposits make up the collateral, which is released at most
      once, in full by a rescue, less the payout by a settlement. */
  ghost predicate CashFlow(v: Vault, series: map<Key, Series>, f: Flows) {
    && f.deposited == v.collateral
    && f.releases == If(v.settled, 1)
    && (f.rescues > 0 ==> v.settled)
    && (v.settled && f.rescues == 0 ==> v.otoken in series && series[v.otoken].price > 0 && v.short > 0)
    && f.released
       == if !v.settled then 0
          else if f.rescues > 0 then v.collateral
          else v.collateral - Due(series[v.otoken], v.short)
  }

  ghost predicate Sound(v: Vault, series: map<Key, Series>, f: Flows) {
    Covered(v, series) && CashFlow(v, series, f)
  }

  ghost predicate VaultsOk(s: System) {
    && (forall k | k in s.vaults :: Sound(s.vaults[k], s.series, FlowsOf(s.log, k)))
    && (forall k | k !in s.vaults :: FlowsOf(s.log, k) == Flows(0, 0, 0, 0))
  }

  /** A recorded price is the oracle's, and only expired series have one. */
  ghost predicate SeriesOk(s: System, otoken: Key)
    requires otoken in s.series
  {
    var o := s.series[otoken];
    && otoken !in {0, o.collateralMint, o.underlying, o.strikeAsset}
    && o.strike > 0
    && o.decimals <= 18
    && (o.price > 0 ==>
          && s.now >= o.expiry
          && PriceKey(o.underlying, o.expiry) in s.prices
          && s.prices[PriceKey(o.underlying, o.expiry)] == o.price)
  }

  /** Redemptions of a series: oTokens, how many times, collateral paid. */
  datatype Payments = Payments(redeemed: nat, times: nat, paid: nat)

  ghost function PaymentsOf(log: Log, otoken: Key): Payments {
    Payments(Total(log, RedeemedOf(otoken)), Total(log, RedemptionsOf(otoken)), Total(log, PaidFor(otoken)))
  }

  /** Series without a price, or not registered, have redeemed nothing. */
  ghost predicate AllSeriesOk(s: System) {
    && (forall o | o in s.series :: SeriesOk(s, o))
    && (forall o | o !in s.series || s.series[o].price == 0 :: PaymentsOf(s.log, o) == Payments(0, 0, 0))
  }

  /** Collateral of each vault on `mint` still in the pool. */
  ghost function HeldMap(s: System, mint: Key): map<VaultKey, int> {
    map k | k in s.vaults ::
      if s.vaults[k].collateralMint == mint then s.vaults[k].collateral - Total(s.log, ReleasedFrom(k)) else 0
  }

  /** Payouts to redeemers of each series on `mint`. */
  ghost function PaidMap(s: System, mint: Key): map<Key, int> {
    map o | o in s.series :: if s.series[o].collateralMint == mint then Total(s.log, PaidFor(o)) else 0
  }

  /** Double entry: the pool plus all payouts equals what vaults still hold plus
      whatever arrived outside the accounted flows. */
  ghost predicate Balanced(s: System, mint: Key) {
    s.Balance(PoolPurse(mint)) + MapSum(PaidMap(s, mint))
      == MapSum(HeldMap(s, mint)) + Total(s.log, GiftsTo(PoolPurse(mint)))
  }

  ghost predicate Inv(s: System) {
    && VaultIds(s)
    && VaultsOk(s)
    && AllSeriesOk(s)
    && (forall mint :: Balanced(s, mint))
  }

  // The parts of the books, one at a time.

  lemma InvVaultIds(s: System)
    requires Inv(s)
    ensures VaultIds(s)
  {
  }

  lemma InvSeriesOk(s: System, otoken: Key)
    requires Inv(s) && otoken in s.series
    ensures SeriesOk(s, otoken)
  {
  }

  lemma InvVault(s: System, k: VaultKey)
    requires Inv(s) && k in s.vaults
    ensures Sound(s.vaults[k], s.series, FlowsOf(s.log, k))
  {
  }

  // ---------------------------------------------------------------- step shapes

  /** Events that only concern vault `k`. */
  ghost predicate Concerns(e: Event, k: VaultKey) {
    (e.VaultOpened? || e.CollateralDeposited? || e.OTokenMinted? || e.Settled? || e.Withdrawn?) && e.vault == k
  }

  ghost function Held(s: System, k: VaultKey): int {
    if k in s.vaults then s.vaults[k].collateral - Total(s.log, ReleasedFrom(k)) else 0
  }

  /** The pools move by what vault `k` holds and by recorded gifts. */
  ghost predicate PoolsFollow(s: System, t: System, k: VaultKey, e: Event)
    requires k in t.vaults
  {
    forall mint ::
      t.Balance(PoolPurse(mint)) - s.Balance(PoolPurse(mint))
        == (if mint == t.vaults[k].collateralMint then Held(t, k) - Held(s, k) else 0) + Amount(e, GiftsTo(PoolPurse(mint)))
  }

  /** `t` differs from `s` in vault `k` and one event about it. */
  ghost predicate OnVault(s: System, t: System, k: VaultKey, e: Event) {
    && Concerns(e, k)
    && k in t.vaults && t.vaults == s.vaults[k := t.vaults[k]]
    && (k in s.vaults ==> s.vaults[k].collateralMint == t.vaults[k].collateralMint)
    && t.now == s.now && t.series == s.series && t.prices == s.prices && t.log == Then(s.log, e)
  }

  lemma OtherFlows(log: Log, e: Event, k: VaultKey, j: VaultKey)
    requires Concerns(e, k) && j != k
    ensures FlowsOf(Then(log, e), j) == FlowsOf(log, j)
  {
  }

  lemma VaultStepVaults(s: System, t: System, k: VaultKey, e: Event)
    requires VaultsOk(s) && OnVault(s, t, k, e)
    requires Sound(t.vaults[k], t.series, FlowsOf(t.log, k))
    ensures VaultsOk(t)
  {
    hide Sound, FlowsOf;
    forall j | j != k ensures FlowsOf(t.log, j) == FlowsOf(s.log, j) {
      OtherFlows(s.log, e, k, j);
    }
  }

  lemma VaultStepSeries(s: System, t: System, k: VaultKey, e: Event)
    requires AllSeriesOk(s) && OnVault(s, t, k, e)
    ensures AllSeriesOk(t)
  {
    forall o ensures PaymentsOf(t.log, o) == PaymentsOf(s.log, o) {
    }
  }

  lemma VaultStepHeld(s: System, t: System, k: VaultKey, e: Event, mint: Key)
    requires OnVault(s, t, k, e)
    ensures MapSum(HeldMap(t, mint))
         == MapSum(HeldMap(s, mint)) + (if mint == t.vaults[k].collateralMint then Held(t, k) - Held(s, k) else 0)
  {
    var x := if mint == t.vaults[k].collateralMint then Held(t, k) else 0;
    assert HeldMap(t, mint) == HeldMap(s, mint)[k := x] by {
      hide MapSum;
    }
    SumUpdate(HeldMap(s, mint), k, x);
  }

  lemma VaultStepBalanced(s: System, t: System, k: VaultKey, e: Event, mint: Key)
    requires Balanced(s, mint) && OnVault(s, t, k, e) && PoolsFollow(s, t, k, e)
    ensures Balanced(t, mint)
  {
    hide HeldMap, Held;
    assert PaidMap(t, mint) == PaidMap(s, mint);
    VaultStepHeld(s, t, k, e, mint);
  }

  /** A step on one vault keeps the books when that vault stays sound. */
  lemma VaultStep(s: System, t: System, k: VaultKey, e: Event)
    requires Inv(s) && OnVault(s, t, k, e) && PoolsFollow(s, t, k, e)
    requires VaultIds(t) && Sound(t.vaults[k], t.series, FlowsOf(t.log, k))
    ensures Inv(t)
  {
    VaultStepVaults(s, t, k, e);
    VaultStepSeries(s, t, k, e);
    forall mint ensures Balanced(t, mint) {
      VaultStepBalanced(s, t, k, e, mint);
    }
  }

  /** Events that touch neither a vault nor a redemption. */
  ghost predicate Neutral(e: Event) {
    e.OrderExecuted? || e.MMRedeemed? || e.PhysicalDelivery? || e.OutsideCredit? || e.OutsideBurn?
  }

  lemma NeutralVaults(s: System, t: System, e: Event)
    requires VaultsOk(s) && Neutral(e)
    requires t.vaults == s.vaults && t.series == s.series && t.log == Then(s.log, e)
    ensures VaultsOk(t)
  {
    forall k ensures FlowsOf(t.log, k) == FlowsOf(s.log, k) {
    }
  }

  lemma NeutralSeries(s: System, t: System, e: Event)
    requires AllSeriesOk(s) && Neutral(e)
    requires t.now == s.now && t.series == s.series && t.prices == s.prices && t.log == Then(s.log, e)
    ensures AllSeriesOk(t)
  {
    forall o ensures PaymentsOf(t.log, o) == PaymentsOf(s.log, o) {
    }
  }

  lemma NeutralBalanced(s: System, t: System, e: Event, mint: Key)
    requires Balanced(s, mint) && Neutral(e)
    requires t.vaults == s.vaults && t.series == s.series && t.log == Then(s.log, e)
    requires t.Balance(PoolPurse(mint)) - s.Balance(PoolPurse(mint)) == Amount(e, GiftsTo(PoolPurse(mint)))
    ensures Balanced(t, mint)
  {
    assert PaidMap(t, mint) == PaidMap(s, mint);
    assert HeldMap(t, mint) == HeldMap(s, mint);
  }

  lemma NeutralStep(s: System, t: System, e: Event)
    requires Inv(s) && Neutral(e)
    requires t.vaults == s.vaults && t.counters == s.counters
    requires t.now == s.now && t.series == s.series && t.prices == s.prices && t.log == Then(s.log, e)
    requires forall mint ::
      t.Balance(PoolPurse(mint)) - s.Balance(PoolPurse(mint)) == Amount(e, GiftsTo(PoolPurse(mint)))
    ensures Inv(t)
  {
    NeutralVaults(s, t, e);
    NeutralSeries(s, t, e);
    forall mint ensures Balanced(t, mint) {
      NeutralBalanced(s, t, e, mint);
    }
  }

  /** Steps without an event that leave vaults, series and pools alone; the clock
      and the oracle's record may move forward. */
  lemma QuietStep(s: System, t: System)
    requires Inv(s)
    requires t.vaults == s.vaults && t.series == s.series && t.log == s.log
    requires VaultIds(t)
    requires s.now <= t.now
    requires forall p | p in s.prices :: p in t.prices && t.prices[p] == s.prices[p]
    requires forall mint :: t.Balance(PoolPurse(mint)) == s.Balance(PoolPurse(mint))
    ensures Inv(t)
  {
    forall mint ensures Balanced(t, mint) {
      assert Balanced(s, mint);
      assert PaidMap(t, mint) == PaidMap(s, mint);
      assert HeldMap(t, mint) == HeldMap(s, mint);
    }
  }

  // ---------------------------------------------------------------- instructions

  lemma InitializeCounterKeeps(s: System, owner: Holder)
    requires Inv(s) && InitializeCounter(s, owner).Ok?
    ensures Inv(InitializeCounter(s, owner).value)
  {
    QuietStep(s, InitializeCounter(s, owner).value);
  }

  lemma OpenVaultKeeps(s: System, owner: Holder, mint: Key, beneficiary: Holder)
    requires Inv(s) && OpenVault(s, owner, mint, beneficiary).Ok?
    ensures Inv(OpenVault(s, owner, mint, beneficiary).value)
  {
    var t := OpenVault(s, owner, mint, beneficiary).value;
    var k := VaultKey(owner, s.counters[owner]);
    assert FlowsOf(s.log, k) == Flows(0, 0, 0, 0);
    VaultStep(s, t, k, VaultOpened(k));
  }

  /** Everything a deposit moves. */
  lemma DepositMoves(s: System, owner: Holder, id: nat, from: Account, pool: Account, amount: u64, credited: nat)
    requires Deposit(s, owner, id, from, pool, amount, credited).Ok?
    ensures var t, k := Deposit(s, owner, id, from, pool, amount, credited).value, VaultKey(owner, id);
            && k in s.vaults && !s.vaults[k].settled && s.vaults[k].collateral + amount <= U64_MAX
            && PurseOf(pool) == PoolPurse(s.vaults[k].collateralMint) && from.mint == pool.mint
            && t == s.(balances := t.balances, vaults := s.vaults[k := s.vaults[k].(collateral := s.vaults[k].collateral + amount)],
                       log := Then(s.log, CollateralDeposited(k, amount)))
            && forall p :: t.Balance(p) == s.Balance(p) - (if p == PurseOf(from) then amount else 0) + (if p == PurseOf(pool) then amount else 0)
  {
    hide Transfer;
    TransferMoves(s, owner, from, pool, amount, credited);
    TransferFunds(s, owner, from, pool, amount, credited);
    var t, moved := Deposit(s, owner, id, from, pool, amount, credited).value, Transfer(s, owner, from, pool, amount, credited).value;
    assert forall p :: t.Balance(p) == moved.Balance(p);
  }

  lemma DepositFunds(s: System, owner: Holder, id: nat, from: Account, pool: Account, amount: u64, credited: nat)
    requires Deposit(s, owner, id, from, pool, amount, credited).Ok?
    ensures from != pool
    ensures var t := Deposit(s, owner, id, from, pool, amount, credited).value;
            forall a :: t.Funds(a) == s.Funds(a) - (if a == from then amount else 0) + (if a == pool then amount else 0)
  {
    hide Transfer;
    TransferFunds(s, owner, from, pool, amount, credited);
  }

  lemma DepositEffect(s: System, owner: Holder, id: nat, from: Account, pool: Account, amount: u64, credited: nat)
    requires Deposit(s, owner, id, from, pool, amount, credited).Ok?
    requires !from.owner.PoolAuthority?
    ensures var t := Deposit(s, owner, id, from, pool, amount, credited).value;
            var k := VaultKey(owner, id);
            var v := s.vaults[k];
            && OnVault(s, t, k, CollateralDeposited(k, amount))
            && PoolsFollow(s, t, k, CollateralDeposited(k, amount))
            && t.counters == s.counters && t.vaults.Keys == s.vaults.Keys
            && t.vaults[k] == v.(collateral := v.collateral + amount) && !v.settled
  {
    hide Deposit;
    DepositMoves(s, owner, id, from, pool, amount, credited);
  }

  lemma DepositSound(v: Vault, series: map<Key, Series>, f: Flows, amount: nat)
    requires Sound(v, series, f) && !v.settled && v.collateral + amount <= U64_MAX
    ensures Sound(v.(collateral := v.collateral + amount), series, f.(deposited := f.deposited + amount))
  {
  }

  lemma DepositKeeps(s: System, owner: Holder, id: nat, from: Account, pool: Account, amount: u64, credited: nat)
    requires Inv(s) && Deposit(s, owner, id, from, pool, amount, credited).Ok?
    requires !from.owner.PoolAuthority?
    ensures Inv(Deposit(s, owner, id, from, pool, amount, credited).value)
  {
    var t := Deposit(s, owner, id, from, pool, amount, credited).value;
    var k := VaultKey(owner, id);
    var e := CollateralDeposited(k, amount);
    DepositEffect(s, owner, id, from, pool, amount, credited);
    DepositSound(s.vaults[k], s.series, FlowsOf(s.log, k), amount);
    FlowsGrow(s.log, e, k);
    VaultStep(s, t, k, e);
  }

  /** One more event about a vault. */
  lemma FlowsGrow(log: Log, e: Event, k: VaultKey)
    ensures var f := FlowsOf(log, k);
            FlowsOf(Then(log, e), k)
            == Flows(f.deposited + Amount(e, DepositedInto(k)), f.released + Amount(e, ReleasedFrom(k)),
                     f.releases + Amount(e, ReleasesOf(k)), f.rescues + Amount(e, RescuesOf(k)))
  {
  }

  /** The code's collateral requirement is the exact worth of the short. */
  lemma RequirementIsExact(o: Series, amount: u64)
    requires o.decimals <= 18
    ensures o.Required(amount).Ok? <==> o.Priceable() && o.Worth(amount) <= U64_MAX
    ensures o.Required(amount).Ok? ==> o.Required(amount).value == o.Worth(amount)
  {
    RequiredIsWorth(o.strike, o.isPut, o.decimals, amount);
  }

  /** Everything a mint moves. */
  lemma MintMoves(s: System, owner: Holder, id: nat, otoken: Key, to: Account, amount: u64)
    requires Mint(s, owner, id, otoken, to, amount).Ok?
    ensures var t, k := Mint(s, owner, id, otoken, to, amount).value, VaultKey(owner, id);
            && k in s.vaults && otoken in s.series && amount > 0 && s.now < s.series[otoken].expiry
            && var v, o := s.vaults[k], s.series[otoken];
            && !v.settled && v.otoken in {0, otoken} && v.short + amount <= U64_MAX
            && o.collateralMint == v.collateralMint && to.mint == otoken
            && o.Required(v.short + amount).Ok? && o.Required(v.short + amount).value <= v.collateral
            && t == s.(supply := s.supply[otoken := s.Supply(otoken) + amount], balances := t.balances,
                       vaults := s.vaults[k := v.(otoken := otoken, short := v.short + amount)],
                       log := Then(s.log, OTokenMinted(k, otoken, amount, PurseOf(to))))
            && forall p :: t.Balance(p) == s.Balance(p) + (if p == PurseOf(to) then amount else 0)
  {
    hide GetRequiredCollateral, MintTo;
    MintToMoves(s, otoken, to, amount);
    var minted, t := MintTo(s, otoken, to, amount).value, Mint(s, owner, id, otoken, to, amount).value;
    assert forall p :: t.Balance(p) == minted.Balance(p);
  }

  lemma MintFunds(s: System, owner: Holder, id: nat, otoken: Key, to: Account, amount: u64)
    requires Mint(s, owner, id, otoken, to, amount).Ok?
    ensures var t := Mint(s, owner, id, otoken, to, amount).value;
            forall a :: t.Funds(a) == s.Funds(a) + (if a == to then amount else 0)
  {
    hide GetRequiredCollateral;
  }

  lemma MintEffect(s: System, owner: Holder, id: nat, otoken: Key, to: Account, amount: u64)
    requires Mint(s, owner, id, otoken, to, amount).Ok?
    requires owner == SettlerPda ==> PurseOf(to) == CustodyPurse(otoken)
    ensures var t := Mint(s, owner, id, otoken, to, amount).value;
            var k := VaultKey(owner, id);
            var v := s.vaults[k];
            && OnVault(s, t, k, OTokenMinted(k, otoken, amount, PurseOf(to)))
            && PoolsFollow(s, t, k, OTokenMinted(k, otoken, amount, PurseOf(to)))
            && t.counters == s.counters && t.vaults.Keys == s.vaults.Keys
            && t.vaults[k] == v.(otoken := otoken, short := v.short + amount)
            && !v.settled && amount > 0 && otoken in s.series
            && s.series[otoken].collateralMint == v.collateralMint
            && s.series[otoken].Required(v.short + amount).Ok?
            && s.series[otoken].Required(v.short + amount).value <= v.collateral
  {
    hide Mint, GetRequiredCollateral;
    MintMoves(s, owner, id, otoken, to, amount);
  }

  lemma MintSound(v: Vault, series: map<Key, Series>, f: Flows, otoken: Key, amount: nat)
    requires Sound(v, series, f) && !v.settled && 0 < amount && v.short + amount <= U64_MAX
    requires otoken in series && otoken != 0 && series[otoken].collateralMint == v.collateralMint
    requires series[otoken].Priceable() && series[otoken].Worth(v.short + amount) <= v.collateral
    ensures Sound(v.(otoken := otoken, short := v.short + amount), series, f)
  {
  }

  /** The settler mints to its own custody, anyone else where they like. */
  lemma MintKeeps(s: System, owner: Holder, id: nat, otoken: Key, to: Account, amount: u64)
    requires Inv(s) && Mint(s, owner, id, otoken, to, amount).Ok?
    requires owner == SettlerPda ==> PurseOf(to) == CustodyPurse(otoken)
    ensures Inv(Mint(s, owner, id, otoken, to, amount).value)
  {
    hide Inv, Controller.Mint, GetRequiredCollateral, OnVault, PoolsFollow;
    MintEffect(s, owner, id, otoken, to, amount);
    MintMoves(s, owner, id, otoken, to, amount);
    MintedKeeps(s, Mint(s, owner, id, otoken, to, amount).value, VaultKey(owner, id), otoken, PurseOf(to), amount);
  }

  lemma MintedKeeps(s: System, t: System, k: VaultKey, otoken: Key, to: Purse, amount: u64)
    requires Inv(s) && OnVault(s, t, k, OTokenMinted(k, otoken, amount, to))
    requires PoolsFollow(s, t, k, OTokenMinted(k, otoken, amount, to))
    requires t.counters == s.counters && t.vaults.Keys == s.vaults.Keys && k in s.vaults
    requires s.vaults[k].short + amount <= U64_MAX && s.vaults[k].otoken in {0, otoken}
    requires amount > 0 && !s.vaults[k].settled
    requires t.vaults[k] == s.vaults[k].(otoken := otoken, short := s.vaults[k].short + amount)
    requires otoken in s.series && s.series[otoken].collateralMint == s.vaults[k].collateralMint
    requires s.series[otoken].Required(t.vaults[k].short).Ok?
    requires s.series[otoken].Required(t.vaults[k].short).value <= s.vaults[k].collateral
    ensures Inv(t)
  {
    hide Inv, Payoff.Worth, GetRequiredCollateral, PoolsFollow;
    InvSeriesOk(s, otoken);
    InvVault(s, k);
    InvVaultIds(s);
    RequirementIsExact(s.series[otoken], t.vaults[k].short);
    MintSound(s.vaults[k], s.series, FlowsOf(s.log, k), otoken, amount);
    FlowsGrow(s.log, OTokenMinted(k, otoken, amount, to), k);
    VaultStep(s, t, k, OTokenMinted(k, otoken, amount, to));
  }

  /** In a sound vault the payout exists at every price and never exceeds the
      collateral: nothing out of the money, the required collateral in it. */
  lemma PayoutAlwaysCovered(v: Vault, series: map<Key, Series>, price: u64)
    requires Covered(v, series) && v.otoken != 0
    ensures var o := series[v.otoken].(price := price);
            o.Payout(v.short) == Ok(Due(o, v.short)) && Due(o, v.short) <= v.collateral
  {
    RequirementIsExact(series[v.otoken], v.short);
  }

  lemma PayOutMoves(s: System, mint: Key, pool: Account, to: Account, amount: nat, credited: nat)
    requires PayOut(s, pool, to, amount, credited).Ok? && PurseOf(pool) == PoolPurse(mint)
    ensures var t := PayOut(s, pool, to, amount, credited).value;
            && t == s.(balances := t.balances)
            && forall p :: t.Balance(p) == s.Balance(p) - (if p == PoolPurse(mint) then amount else 0)
                                           + (if p == PurseOf(to) && amount > 0 then credited else 0)
  {
  }

  /** Everything a settlement moves. */
  lemma SettleMoves(s: System, signer: Key, owner: Holder, id: nat, pool: Account, to: Account, credited: nat)
    requires Settle(s, signer, owner, id, pool, to, credited).Ok?
    ensures var t, k := Settle(s, signer, owner, id, pool, to, credited).value, VaultKey(owner, id);
            && k in s.vaults && s.vaults[k].otoken in s.series
            && var v := s.vaults[k];
               var o := s.series[v.otoken];
            && !v.settled && v.short > 0 && o.price > 0 && s.now >= o.expiry
            && o.Payout(v.short).Ok? && o.Payout(v.short).value <= v.collateral
            && PurseOf(to) == Purse(v.beneficiary, v.collateralMint)
            && var returned := v.collateral - o.Payout(v.short).value;
            && t == s.(balances := t.balances, vaults := s.vaults[k := v.(settled := true)],
                       log := Then(s.log, Settled(k, returned, if returned > 0 then credited else 0, PurseOf(to))))
            && forall p :: t.Balance(p) == s.Balance(p) - (if p == PoolPurse(v.collateralMint) then returned else 0)
                                           + (if p == PurseOf(to) && returned > 0 then credited else 0)
  {
    hide GetPayout, PayOut;
    var v := s.vaults[VaultKey(owner, id)];
    var returned := v.collateral - s.series[v.otoken].Payout(v.short).value;
    PayOutMoves(s, v.collateralMint, pool, to, returned, credited);
    var paid, t := PayOut(s, pool, to, returned, credited).value, Settle(s, signer, owner, id, pool, to, credited).value;
    assert forall p :: t.Balance(p) == paid.Balance(p);
  }

  lemma SettleEffect(s: System, signer: Key, owner: Holder, id: nat, pool: Account, to: Account, credited: nat)
    requires Settle(s, signer, owner, id, pool, to, credited).Ok?
    ensures var t := Settle(s, signer, owner, id, pool, to, credited).value;
            var k := VaultKey(owner, id);
            var v := s.vaults[k];
            && k in s.vaults && t.log.Then? && t.log.event.Settled?
            && OnVault(s, t, k, t.log.event)
            && PoolsFollow(s, t, k, t.log.event)
            && t.counters == s.counters && t.vaults.Keys == s.vaults.Keys
            && t.vaults[k] == v.(settled := true) && !v.settled && v.short > 0
            && v.otoken in s.series && s.series[v.otoken].price > 0
            && s.series[v.otoken].Payout(v.short).Ok?
            && t.log.event.returned == v.collateral - s.series[v.otoken].Payout(v.short).value
  {
    hide Settle, GetPayout;
    SettleMoves(s, signer, owner, id, pool, to, credited);
  }

  lemma SettleKeeps(s: System, signer: Key, owner: Holder, id: nat, pool: Account, to: Account, credited: nat)
    requires Inv(s) && Settle(s, signer, owner, id, pool, to, credited).Ok?
    ensures Inv(Settle(s, signer, owner, id, pool, to, credited).value)
  {
    hide Inv, Controller.Settle, PoolsFollow;
    var t := Settle(s, signer, owner, id, pool, to, credited).value;
    var k := VaultKey(owner, id);
    SettleEffect(s, signer, owner, id, pool, to, credited);
    var v := s.vaults[k];
    InvVault(s, k);
    InvVaultIds(s);
    PayoutAlwaysCovered(v, s.series, s.series[v.otoken].price);
    FlowsGrow(s.log, t.log.event, k);
    VaultStep(s, t, k, t.log.event);
  }

  /** Everything an emergency withdrawal moves. */
  lemma EmergencyMoves(s: System, owner: Holder, id: nat, pool: Account, to: Account, credited: nat)
    requires EmergencyWithdrawVault(s, owner, id, pool, to, credited).Ok?
    ensures var t, k := EmergencyWithdrawVault(s, owner, id, pool, to, credited).value, VaultKey(owner, id);
            && k in s.vaults
            && var v := s.vaults[k];
            && !v.settled && PurseOf(to) == Purse(v.beneficiary, v.collateralMint)
            && t == s.(balances := t.balances, vaults := s.vaults[k := v.(settled := true)],
                       log := Then(s.log, Withdrawn(k, v.collateral, if v.collateral > 0 then credited else 0, PurseOf(to))))
            && forall p :: t.Balance(p) == s.Balance(p) - (if p == PoolPurse(v.collateralMint) then v.collateral else 0)
                                           + (if p == PurseOf(to) && v.collateral > 0 then credited else 0)
  {
    hide PayOut;
    var k := VaultKey(owner, id);
    var v := s.vaults[k];
    var marked := s.(vaults := s.vaults[k := v.(settled := true)]);
    PayOutMoves(marked, v.collateralMint, pool, to, v.collateral, credited);
    var paid, t := PayOut(marked, pool, to, v.collateral, credited).value, EmergencyWithdrawVault(s, owner, id, pool, to, credited).value;
    assert forall p :: t.Balance(p) == paid.Balance(p);
    assert forall p :: marked.Balance(p) == s.Balance(p);
  }

  lemma EmergencyEffect(s: System, owner: Holder, id: nat, pool: Account, to: Account, credited: nat)
    requires EmergencyWithdrawVault(s, owner, id, pool, to, credited).Ok?
    ensures var t := EmergencyWithdrawVault(s, owner, id, pool, to, credited).value;
            var k := VaultKey(owner, id);
            var v := s.vaults[k];
            && t.log.Then? && t.log.event.Withdrawn?
            && OnVault(s, t, k, t.log.event)
            && PoolsFollow(s, t, k, t.log.event)
            && t.counters == s.counters && t.vaults.Keys == s.vaults.Keys
            && t.vaults[k] == v.(settled := true) && !v.settled
            && t.log.event.returned == v.collateral
  {
    hide EmergencyWithdrawVault;
    EmergencyMoves(s, owner, id, pool, to, credited);
  }

  lemma EmergencyKeeps(s: System, owner: Holder, id: nat, pool: Account, to: Account, credited: nat)
    requires Inv(s) && EmergencyWithdrawVault(s, owner, id, pool, to, credited).Ok?
    ensures Inv(EmergencyWithdrawVault(s, owner, id, pool, to, credited).value)
  {
    var t := EmergencyWithdrawVault(s, owner, id, pool, to, credited).value;
    var k := VaultKey(owner, id);
    EmergencyEffect(s, owner, id, pool, to, credited);
    assert Sound(s.vaults[k], s.series, FlowsOf(s.log, k));
    FlowsGrow(s.log, t.log.event, k);
    VaultStep(s, t, k, t.log.event);
  }

  /** Everything a redemption moves: the burn, the payout, and its credit. */
  lemma RedeemMoves(s: System, redeemer: Holder, otoken: Key, from: Account, to: Account, pool: Account, amount: u64, credited: nat)
    requires Redeem(s, redeemer, otoken, from, to, pool, amount, credited).Ok?
    ensures var t := Redeem(s, redeemer, otoken, from, to, pool, amount, credited).value;
            && otoken in s.series && s.series[otoken].price > 0 && s.now >= s.series[otoken].expiry
            && s.series[otoken].Payout(amount).Ok? && 0 < amount <= s.Supply(otoken)
            && PurseOf(from) == Purse(redeemer, otoken) && PurseOf(to) == Purse(redeemer, s.series[otoken].collateralMint)
            && t == s.(balances := t.balances, supply := s.supply[otoken := s.Supply(otoken) - amount], log := t.log)
            && t.log == Then(s.log, Redeemed(otoken, amount, s.series[otoken].Payout(amount).value))
            && var payout := s.series[otoken].Payout(amount).value;
            forall p :: t.Balance(p) == s.Balance(p)
                        - (if p == PurseOf(from) then amount else 0)
                        - (if p == PoolPurse(s.series[otoken].collateralMint) then payout else 0)
                        + (if p == PurseOf(to) && payout > 0 then credited else 0)
  {
    hide GetPayout, Burn, PayOut;
    var o := s.series[otoken];
    BurnMoves(s, redeemer, from, amount);
    PayOutMoves(Burn(s, redeemer, from, amount).value, o.collateralMint, pool, to, o.Payout(amount).value, credited);
  }

  lemma RedeemPool(s: System, redeemer: Holder, otoken: Key, from: Account, to: Account, pool: Account, amount: u64, credited: nat)
    requires Redeem(s, redeemer, otoken, from, to, pool, amount, credited).Ok?
    ensures otoken in s.series && PurseOf(pool) == PoolPurse(s.series[otoken].collateralMint)
  {
    hide GetPayout, Burn, PayOut;
  }

  /** The same, account by account. */
  lemma RedeemFunds(s: System, redeemer: Holder, otoken: Key, from: Account, to: Account, pool: Account, amount: u64, credited: nat)
    requires Redeem(s, redeemer, otoken, from, to, pool, amount, credited).Ok?
    ensures otoken in s.series && s.series[otoken].Payout(amount).Ok?
    ensures var t, payout := Redeem(s, redeemer, otoken, from, to, pool, amount, credited).value, s.series[otoken].Payout(amount).value;
            forall a :: t.Funds(a) == s.Funds(a) - (if a == from then amount else 0) - (if a == pool then payout else 0)
                                      + (if a == to && payout > 0 then credited else 0)
  {
    hide GetPayout, Burn, Transfer;
    BurnFunds(s, redeemer, from, amount);
    var burned, payout := Burn(s, redeemer, from, amount).value, s.series[otoken].Payout(amount).value;
    if payout > 0 {
      TransferFunds(burned, pool.owner, pool, to, payout, credited);
    }
  }

  lemma RedeemEffect(s: System, redeemer: Holder, otoken: Key, from: Account, to: Account, pool: Account, amount: u64, credited: nat)
    requires Redeem(s, redeemer, otoken, from, to, pool, amount, credited).Ok?
    requires !redeemer.PoolAuthority?
    ensures var t := Redeem(s, redeemer, otoken, from, to, pool, amount, credited).value;
            && otoken in s.series && s.series[otoken].price > 0 && s.now >= s.series[otoken].expiry
            && s.series[otoken].Payout(amount).Ok? && 0 < amount <= s.Supply(otoken)
            && t == s.(balances := t.balances, supply := s.supply[otoken := s.Supply(otoken) - amount], log := t.log)
            && t.log == Then(s.log, Redeemed(otoken, amount, s.series[otoken].Payout(amount).value))
            && forall mint :: t.Balance(PoolPurse(mint)) - s.Balance(PoolPurse(mint))
                              == -(if s.series[otoken].collateralMint == mint then s.series[otoken].Payout(amount).value else 0)
  {
    hide Redeem, GetPayout;
    RedeemMoves(s, redeemer, otoken, from, to, pool, amount, credited);
  }

  lemma RedeemBalanced(s: System, t: System, otoken: Key, amount: nat, payout: nat, mint: Key)
    requires Balanced(s, mint) && otoken in s.series
    requires t.vaults == s.vaults && t.series == s.series && t.log == Then(s.log, Redeemed(otoken, amount, payout))
    requires t.Balance(PoolPurse(mint)) - s.Balance(PoolPurse(mint))
             == -(if s.series[otoken].collateralMint == mint then payout else 0)
    ensures Balanced(t, mint)
  {
    hide PaidMap;
    assert HeldMap(t, mint) == HeldMap(s, mint);
    RedeemPaid(s, t, otoken, amount, payout, mint);
  }

  lemma RedeemPaid(s: System, t: System, otoken: Key, amount: nat, payout: nat, mint: Key)
    requires otoken in s.series && t.series == s.series && t.log == Then(s.log, Redeemed(otoken, amount, payout))
    ensures MapSum(PaidMap(t, mint)) == MapSum(PaidMap(s, mint)) + (if s.series[otoken].collateralMint == mint then payout else 0)
  {
    var x := if s.series[otoken].collateralMint == mint then Total(t.log, PaidFor(otoken)) else 0;
    assert PaidMap(t, mint) == PaidMap(s, mint)[otoken := x];
    SumUpdate(PaidMap(s, mint), otoken, x);
  }

  /** A redemption of `otoken`, whoever's tokens were burned. */
  lemma RedemptionKeeps(s: System, t: System, otoken: Key, amount: nat, payout: nat)
    requires Inv(s) && otoken in s.series && s.series[otoken].price > 0
    requires t.vaults == s.vaults && t.counters == s.counters && t.series == s.series && t.prices == s.prices && t.now == s.now
    requires t.log == Then(s.log, Redeemed(otoken, amount, payout))
    requires forall mint :: t.Balance(PoolPurse(mint)) - s.Balance(PoolPurse(mint))
                            == -(if s.series[otoken].collateralMint == mint then payout else 0)
    ensures Inv(t)
  {
    assert VaultsOk(t) by {
      forall k ensures FlowsOf(t.log, k) == FlowsOf(s.log, k) {
      }
    }
    assert AllSeriesOk(t) by {
      forall j | j != otoken ensures PaymentsOf(t.log, j) == PaymentsOf(s.log, j) {
      }
    }
    forall mint ensures Balanced(t, mint) {
      RedeemBalanced(s, t, otoken, amount, payout, mint);
    }
  }

  lemma RedeemKeeps(s: System, redeemer: Holder, otoken: Key, from: Account, to: Account, pool: Account, amount: u64, credited: nat)
    requires Inv(s) && Redeem(s, redeemer, otoken, from, to, pool, amount, credited).Ok?
    requires !redeemer.PoolAuthority?
    ensures Inv(Redeem(s, redeemer, otoken, from, to, pool, amount, credited).value)
  {
    hide Redeem, GetPayout, Inv;
    RedeemEffect(s, redeemer, otoken, from, to, pool, amount, credited);
    RedemptionKeeps(s, Redeem(s, redeemer, otoken, from, to, pool, amount, credited).value, otoken, amount,
                    s.series[otoken].Payout(amount).value);
  }

  /** A series record that only gains: registered, or given its price. */
  ghost predicate SeriesAdvance(s: System, t: System, otoken: Key) {
    && otoken in t.series && t.series == s.series[otoken := t.series[otoken]]
    && t == s.(series := t.series)
    && (otoken in s.series ==>
          && s.series[otoken].price == 0
          && t.series[otoken] == s.series[otoken].(price := t.series[otoken].price))
  }

  lemma SeriesAdvanceVaults(s: System, t: System, otoken: Key)
    requires VaultsOk(s) && SeriesAdvance(s, t, otoken)
    ensures VaultsOk(t)
  {
    forall k | k in t.vaults ensures Sound(t.vaults[k], t.series, FlowsOf(t.log, k)) {
      SeriesAdvanceSound(s.vaults[k], s.series, otoken, t.series[otoken], FlowsOf(s.log, k));
    }
  }

  lemma SeriesAdvanceSound(v: Vault, series: map<Key, Series>, otoken: Key, o: Series, f: Flows)
    requires Sound(v, series, f)
    requires otoken in series ==> series[otoken].price == 0 && o == series[otoken].(price := o.price)
    ensures Sound(v, series[otoken := o], f)
  {
  }

  lemma SeriesAdvanceBalanced(s: System, t: System, otoken: Key, mint: Key)
    requires Balanced(s, mint) && SeriesAdvance(s, t, otoken)
    requires Total(s.log, PaidFor(otoken)) == 0
    ensures Balanced(t, mint)
  {
    assert HeldMap(t, mint) == HeldMap(s, mint);
    assert PaidMap(t, mint) == PaidMap(s, mint)[otoken := 0];
    SumUpdate(PaidMap(s, mint), otoken, 0);
  }

  lemma CreateSeriesKeeps(s: System, signer: Key, operator: bool, otoken: Key, o: Series)
    requires Inv(s) && CreateSeries(s, signer, operator, otoken, o).Ok?
    ensures Inv(CreateSeries(s, signer, operator, otoken, o).value)
  {
    var t := CreateSeries(s, signer, operator, otoken, o).value;
    SeriesAdvanceVaults(s, t, otoken);
    assert PaymentsOf(s.log, otoken) == Payments(0, 0, 0);
    forall mint ensures Balanced(t, mint) {
      SeriesAdvanceBalanced(s, t, otoken, mint);
    }
  }

  lemma SetExpiryPriceKeeps(s: System, signer: Key, otoken: Key)
    requires Inv(s) && SetExpiryPrice(s, signer, otoken).Ok?
    ensures Inv(SetExpiryPrice(s, signer, otoken).value)
  {
    var t := SetExpiryPrice(s, signer, otoken).value;
    SeriesAdvanceVaults(s, t, otoken);
    assert PaymentsOf(s.log, otoken) == Payments(0, 0, 0);
    forall mint ensures Balanced(t, mint) {
      SeriesAdvanceBalanced(s, t, otoken, mint);
    }
  }
}
