/** `execute_order` against the ledgers. */
module OrderSteps {
  import opened Wrappers
  import opened Ints
  import opened Bytes
  import opened Payoff
  import opened Sums
  import opened Model
  import opened Tokens
  import opened Quotes
  import opened Settler
  import opened SettlerBooks
  import opened PoolBooks
  import Controller

  ghost function OrderVault(s: System): VaultKey {
    VaultKey(SettlerPda, if SettlerPda in s.counters then s.counters[SettlerPda] else 0)
  }

  /** The log after an order. */
  ghost function OrderLog(log: Log, k: VaultKey, a: Order, fee: nat): Log {
    Then(Then(Then(Then(log, VaultOpened(k)), CollateralDeposited(k, a.collateralAmount)),
              OTokenMinted(k, a.otoken, a.amount, CustodyPurse(a.otoken))),
         OrderExecuted(a.Fill(), k, a.amount, a.maxAmount, fee, PurseOf(a.accounts.treasury)))
  }

  lemma OrderTotal(log: Log, k: VaultKey, a: Order, fee: nat, q: Query)
    ensures Total(OrderLog(log, k, a, fee), q)
         == Total(log, q) + Amount(VaultOpened(k), q) + Amount(CollateralDeposited(k, a.collateralAmount), q)
            + Amount(OTokenMinted(k, a.otoken, a.amount, CustodyPurse(a.otoken)), q)
            + Amount(OrderExecuted(a.Fill(), k, a.amount, a.maxAmount, fee, PurseOf(a.accounts.treasury)), q)
  {
    FourMore(log, VaultOpened(k), CollateralDeposited(k, a.collateralAmount),
             OTokenMinted(k, a.otoken, a.amount, CustodyPurse(a.otoken)),
             OrderExecuted(a.Fill(), k, a.amount, a.maxAmount, fee, PurseOf(a.accounts.treasury)), q);
  }

  /** What a successful collateral leg leaves behind. */
  ghost predicate Wrote(s: System, t: System, a: Order) {
    var k := OrderVault(s);
    && SettlerPda in s.counters && k !in s.vaults
    && t.vaults == s.vaults[k := Vault(a.collateralMint, a.collateralAmount, a.otoken, a.amount, false, Wallet(a.user))]
    && t.log == Then(Then(Then(s.log, VaultOpened(k)), CollateralDeposited(k, a.collateralAmount)),
                     OTokenMinted(k, a.otoken, a.amount, CustodyPurse(a.otoken)))
    && t == s.(vaults := t.vaults, counters := t.counters, balances := t.balances, supply := t.supply, log := t.log)
    && a.otoken in s.series && s.now < s.series[a.otoken].expiry && a.amount > 0
    && Shifted(s, t, PurseOf(a.accounts.userCollateral), PurseOf(a.accounts.pool), a.collateralAmount, CustodyPurse(a.otoken), a.amount)
  }

  /** A transfer between two accounts and an issue into a third. */
  ghost predicate Shifted(s: System, t: System, from: Purse, to: Purse, amount: nat, into: Purse, issued: nat) {
    forall p :: t.Balance(p) == s.Balance(p) - (if p == from then amount else 0) + (if p == to then amount else 0)
                                + (if p == into then issued else 0)
  }

  /** One instruction of the collateral leg: the vault it leaves and the event it
      logs. */
  ghost predicate Leg(s: System, t: System, k: VaultKey, v: Vault, e: Event) {
    && t.vaults == s.vaults[k := v] && t.log == Then(s.log, e)
    && t == s.(vaults := t.vaults, counters := t.counters, balances := t.balances, supply := t.supply, log := t.log)
  }

  lemma OpenLeg(s: System, mint: Key, beneficiary: Holder)
    requires Controller.OpenVault(s, SettlerPda, mint, beneficiary).Ok?
    ensures SettlerPda in s.counters && OrderVault(s) !in s.vaults
    ensures Leg(s, Controller.OpenVault(s, SettlerPda, mint, beneficiary).value, OrderVault(s),
                Vault(mint, 0, 0, 0, false, beneficiary), VaultOpened(OrderVault(s)))
    ensures forall p :: Controller.OpenVault(s, SettlerPda, mint, beneficiary).value.Balance(p) == s.Balance(p)
  {
  }

  lemma DepositLeg(s: System, id: nat, from: Account, pool: Account, amount: u64, credited: nat)
    requires Controller.Deposit(s, SettlerPda, id, from, pool, amount, credited).Ok? && from.owner.Wallet?
    ensures var k := VaultKey(SettlerPda, id);
            && k in s.vaults && s.vaults[k].collateral + amount <= U64_MAX
            && Leg(s, Controller.Deposit(s, SettlerPda, id, from, pool, amount, credited).value, k,
                   s.vaults[k].(collateral := s.vaults[k].collateral + amount), CollateralDeposited(k, amount))
            && from.mint == s.vaults[k].collateralMint && PurseOf(pool) == PoolPurse(s.vaults[k].collateralMint)
    ensures var t := Controller.Deposit(s, SettlerPda, id, from, pool, amount, credited).value;
            forall p :: t.Balance(p) == s.Balance(p) - (if p == PurseOf(from) then amount else 0) + (if p == PurseOf(pool) then amount else 0)
  {
    hide Controller.Deposit;
    DepositMoves(s, SettlerPda, id, from, pool, amount, credited);
  }

  lemma MintLeg(s: System, id: nat, otoken: Key, to: Account, amount: u64)
    requires Controller.Mint(s, SettlerPda, id, otoken, to, amount).Ok? && PurseOf(to) == CustodyPurse(otoken)
    ensures var k := VaultKey(SettlerPda, id);
            && k in s.vaults && s.vaults[k].short + amount <= U64_MAX && otoken in s.series && s.now < s.series[otoken].expiry && amount > 0
            && Leg(s, Controller.Mint(s, SettlerPda, id, otoken, to, amount).value, k,
                   s.vaults[k].(otoken := otoken, short := s.vaults[k].short + amount),
                   OTokenMinted(k, otoken, amount, CustodyPurse(otoken)))
    ensures var t := Controller.Mint(s, SettlerPda, id, otoken, to, amount).value;
            forall p :: t.Balance(p) == s.Balance(p) + (if p == CustodyPurse(otoken) then amount else 0)
  {
    hide GetRequiredCollateral, MintTo;
    MintToMoves(s, otoken, to, amount);
    var minted, t := MintTo(s, otoken, to, amount).value,
                     Controller.Mint(s, SettlerPda, id, otoken, to, amount).value;
    assert forall p :: t.Balance(p) == minted.Balance(p);
  }

  lemma WriteOptionEffect(s: System, a: Order)
    requires WriteOption(s, a).Ok?
    requires a.accounts.userCollateral.owner.Wallet? && PurseOf(a.accounts.settlerOtoken) == CustodyPurse(a.otoken)
    ensures Wrote(s, WriteOption(s, a).value, a)
    ensures a.accounts.userCollateral.mint == a.collateralMint && PurseOf(a.accounts.pool) == PoolPurse(a.collateralMint)
  {
    hide Controller.OpenVault, Controller.Deposit, Controller.Mint;
    var id := OrderVault(s).id;
    var vaulted := Controller.OpenVault(s, SettlerPda, a.collateralMint, Wallet(a.user)).value;
    OpenLeg(s, a.collateralMint, Wallet(a.user));
    var funded := Controller.Deposit(vaulted, SettlerPda, id, a.accounts.userCollateral, a.accounts.pool, a.collateralAmount, a.credited).value;
    DepositLeg(vaulted, id, a.accounts.userCollateral, a.accounts.pool, a.collateralAmount, a.credited);
    MintLeg(funded, id, a.otoken, a.accounts.settlerOtoken, a.amount);
  }

  lemma CheckedAccounts(s: System, a: Order)
    requires CheckOrder(s, a).Pass?
    ensures a.maker in s.makers && s.makers[a.maker].whitelisted && s.makers[a.maker].nonce == a.nonce
    ensures a.accounts.userCollateral.owner == Wallet(a.user) && PurseOf(a.accounts.pool) == PoolPurse(a.collateralMint)
    ensures PurseOf(a.accounts.settlerOtoken) == CustodyPurse(a.otoken)
    ensures PurseOf(a.accounts.mmPremium) == Purse(Wallet(a.maker), a.premiumMint)
    ensures PurseOf(a.accounts.userPremium) == Purse(Wallet(a.user), a.premiumMint)
    ensures PurseOf(a.accounts.treasury) == Purse(s.settler.treasury, a.premiumMint)
    ensures MIN_EXECUTE_AMOUNT <= a.amount && a.bidPrice > 0 && s.now <= a.deadline
  {
  }

  /** What any executed order went through: an earlier instruction of the
      signature program that carries a whitelisted maker's key and these very
      terms, which the precompile has verified when the instruction's index fields
      name itself; the maker's current nonce, the deadline, and room left in the
      quote for this amount. */
  lemma OrderIsAuthorised(s: System, a: Order)
    requires ExecuteOrder(s, a).Ok?
    ensures a.maker in s.makers && s.makers[a.maker].whitelisted && s.makers[a.maker].nonce == a.nonce
    ensures exists i :: 0 <= i < a.current && i < |a.ixs| && Carries(a.ixs, i, ToLE(a.maker, 32), Message(a.Quote()))
    ensures s.now <= a.deadline && !FillOf(s, a.Fill()).cancelled
    ensures FillOf(s, a.Fill()).filled + a.amount <= a.maxAmount
  {
    hide FillOrder, Carries, Accepts, Message, ToLE;
    var key, message := ToLE(a.maker, 32), Message(a.Quote());
    var i :| 0 <= i < a.current && i < |a.ixs| && Accepts(a.ixs[i], key, message);
    AcceptedIsCarried(a.ixs, i, key, message);
  }

  /** Premium leaves the maker exactly, split between user and treasury. */
  lemma PremiumMoves(s: System, a: Order, split: Split)
    requires PayPremium(s, a, split).Ok?
    ensures var t := PayPremium(s, a, split).value;
            && t == s.(balances := t.balances)
            && forall p :: t.Balance(p) == s.Balance(p) - (if p == PurseOf(a.accounts.mmPremium) then split.net + split.fee else 0)
                           + (if p == PurseOf(a.accounts.userPremium) then split.net else 0)
                           + (if p == PurseOf(a.accounts.treasury) then split.fee else 0)
  {
    hide Transfer;
    var paid := s;
    if split.net > 0 {
      paid := Transfer(s, SettlerPda, a.accounts.mmPremium, a.accounts.userPremium, split.net, split.net).value;
      TransferMoves(s, SettlerPda, a.accounts.mmPremium, a.accounts.userPremium, split.net, split.net);
    }
    if split.fee > 0 {
      TransferMoves(paid, SettlerPda, a.accounts.mmPremium, a.accounts.treasury, split.fee, split.fee);
    }
  }

  lemma PayPremiumEffect(s: System, a: Order, split: Split)
    requires PayPremium(s, a, split).Ok?
    requires a.accounts.mmPremium.owner.Wallet? && a.accounts.userPremium.owner.Wallet?
    ensures var t := PayPremium(s, a, split).value;
            && t == s.(balances := t.balances)
            && forall p: Purse | !p.owner.Wallet? :: t.Balance(p) == s.Balance(p) + (if p == PurseOf(a.accounts.treasury) then split.fee else 0)
  {
    hide PayPremium;
    PremiumMoves(s, a, split);
  }

  /** Everything a successful order changes outside the controller's books,
      once the quote has been charged. */
  ghost predicate Filled(s: System, t: System, a: Order, fee: nat) {
    var k, c := OrderVault(s), CustodyKey(a.maker, a.otoken);
    && k !in s.vaults && k !in s.attributions
    && t.vaults == s.vaults[k := Vault(a.collateralMint, a.collateralAmount, a.otoken, a.amount, false, Wallet(a.user))]
    && t.attributions == s.attributions[k := VaultMM(a.maker, a.otoken, a.amount)]
    && CustodyOf(s, c) + a.amount <= U64_MAX && t.custody == s.custody[c := CustodyOf(s, c) + a.amount]
    && t == s.(vaults := t.vaults, counters := t.counters, balances := t.balances, supply := t.supply,
               custody := t.custody, attributions := t.attributions, log := t.log)
    && a.otoken in s.series && s.now < s.series[a.otoken].expiry && a.amount > 0
    && t.log == OrderLog(s.log, k, a, fee)
    && forall mint ::
      t.Balance(CustodyPurse(mint)) == s.Balance(CustodyPurse(mint)) + (if mint == a.otoken then a.amount else 0)
                                       + (if PurseOf(a.accounts.treasury) == CustodyPurse(mint) then fee else 0)
  }

  /** Every balance an order moves: collateral from the user to the pool, oTokens
      into custody, premium from the maker to user and treasury. */
  ghost predicate Paid(s: System, t: System, a: Order, split: Split) {
    && split.premium == split.net + split.fee
    && forall p :: t.Balance(p) == s.Balance(p)
         - (if p == Purse(Wallet(a.user), a.collateralMint) then a.collateralAmount else 0)
         + (if p == PoolPurse(a.collateralMint) then a.collateralAmount else 0)
         + (if p == CustodyPurse(a.otoken) then a.amount else 0)
         - (if p == Purse(Wallet(a.maker), a.premiumMint) then split.premium else 0)
         + (if p == Purse(Wallet(a.user), a.premiumMint) then split.net else 0)
         + (if p == PurseOf(a.accounts.treasury) then split.fee else 0)
  }

  ghost predicate Executed(s: System, t: System, a: Order, fee: nat) {
    var q := a.Fill();
    && !FillOf(s, q).cancelled && FillOf(s, q).filled + a.amount <= a.maxAmount
    && a.maker in s.makers && s.makers[a.maker].nonce == a.nonce
    && Filled(s.(fills := s.fills[q := QuoteFill(FillOf(s, q).filled + a.amount, false)]), t, a, fee)
  }

  lemma WrittenCustody(s: System, t: System, a: Order)
    requires Shifted(s, t, PurseOf(a.accounts.userCollateral), PurseOf(a.accounts.pool), a.collateralAmount, CustodyPurse(a.otoken), a.amount)
    requires a.accounts.userCollateral.owner.Wallet? && PurseOf(a.accounts.pool) == PoolPurse(a.collateralMint)
    ensures forall mint ::
      t.Balance(CustodyPurse(mint)) == s.Balance(CustodyPurse(mint)) + (if mint == a.otoken then a.amount else 0)
  {
  }

  lemma FillOrderEffect(s: System, a: Order, split: Split)
    requires FillOrder(s, a, split).Ok?
    requires a.accounts.userCollateral.owner.Wallet? && PurseOf(a.accounts.settlerOtoken) == CustodyPurse(a.otoken)
    requires a.accounts.mmPremium.owner.Wallet? && a.accounts.userPremium.owner.Wallet?
    ensures Filled(s, FillOrder(s, a, split).value, a, split.fee)
  {
    hide WriteOption, PayPremium, Shifted;
    WriteOptionEffect(s, a);
    var written := WriteOption(s, a).value;
    WrittenCustody(s, written, a);
    var attributed := Attribute(written, OrderVault(s), a.maker, a.otoken, a.amount).value;
    PayPremiumEffect(attributed, a, split);
    var paid, t := PayPremium(attributed, a, split).value, FillOrder(s, a, split).value;
    SameBalances(t, paid);
    SameBalances(attributed, written);
    FilledCustody(s, written, t, a, split.fee);
  }

  lemma FilledCustody(s: System, written: System, t: System, a: Order, fee: nat)
    requires forall mint :: written.Balance(CustodyPurse(mint)) == s.Balance(CustodyPurse(mint)) + (if mint == a.otoken then a.amount else 0)
    requires forall p: Purse | !p.owner.Wallet? :: t.Balance(p) == written.Balance(p) + (if p == PurseOf(a.accounts.treasury) then fee else 0)
    ensures forall mint ::
      t.Balance(CustodyPurse(mint)) == s.Balance(CustodyPurse(mint)) + (if mint == a.otoken then a.amount else 0)
                                       + (if PurseOf(a.accounts.treasury) == CustodyPurse(mint) then fee else 0)
  {
  }

  lemma FillOrderPays(s: System, a: Order, split: Split)
    requires FillOrder(s, a, split).Ok? && split.premium == split.net + split.fee
    requires a.accounts.userCollateral.owner == Wallet(a.user) && PurseOf(a.accounts.settlerOtoken) == CustodyPurse(a.otoken)
    requires PurseOf(a.accounts.mmPremium) == Purse(Wallet(a.maker), a.premiumMint)
    requires PurseOf(a.accounts.userPremium) == Purse(Wallet(a.user), a.premiumMint)
    ensures Paid(s, FillOrder(s, a, split).value, a, split)
  {
    hide WriteOption, PayPremium;
    WriteOptionEffect(s, a);
    var written := WriteOption(s, a).value;
    var attributed := Attribute(written, OrderVault(s), a.maker, a.otoken, a.amount).value;
    PremiumMoves(attributed, a, split);
    var paid, t := PayPremium(attributed, a, split).value, FillOrder(s, a, split).value;
    SameBalances(t, paid);
    SameBalances(attributed, written);
    Composed(s, written, paid, a, split);
    assert forall p :: t.Balance(p) == paid.Balance(p);
  }

  lemma Composed(s: System, w: System, t: System, a: Order, split: Split)
    requires split.premium == split.net + split.fee && PurseOf(a.accounts.userCollateral) == Purse(Wallet(a.user), a.collateralMint)
    requires Shifted(s, w, PurseOf(a.accounts.userCollateral), PoolPurse(a.collateralMint), a.collateralAmount, CustodyPurse(a.otoken), a.amount)
    requires forall p :: t.Balance(p) == w.Balance(p)
               - (if p == Purse(Wallet(a.maker), a.premiumMint) then split.net + split.fee else 0)
               + (if p == Purse(Wallet(a.user), a.premiumMint) then split.net else 0)
               + (if p == PurseOf(a.accounts.treasury) then split.fee else 0)
    ensures Paid(s, t, a, split)
  {
  }

  lemma SameBalances(s: System, t: System)
    requires t.balances == s.balances
    ensures forall p :: t.Balance(p) == s.Balance(p)
  {
  }

  /** Everything a successful order changes. */
  lemma ExecuteOrderEffect(s: System, a: Order)
    requires ExecuteOrder(s, a).Ok?
    ensures var split := ComputePremiumSplit(a.amount, a.bidPrice, s.settler.feeBps);
            && split.Ok? && Executed(s, ExecuteOrder(s, a).value, a, split.value.fee)
            && Paid(s, ExecuteOrder(s, a).value, a, split.value)
            && Charged(a.amount, a.bidPrice, s.settler.feeBps, split.value)
            && PurseOf(a.accounts.treasury) == Purse(s.settler.treasury, a.premiumMint)
  {
    hide FillOrder, CheckOrder, Filled;
    CheckedAccounts(s, a);
    SplitIsCharged(a.amount, a.bidPrice, s.settler.feeBps);
    var split := ComputePremiumSplit(a.amount, a.bidPrice, s.settler.feeBps).value;
    var fill := UpdateFill(FillOf(s, a.Fill()), a.amount, a.maxAmount).value;
    var filled := s.(fills := s.fills[a.Fill() := fill]);
    FillOrderEffect(filled, a, split);
    FillOrderPays(filled, a, split);
    SameBalances(s, filled);
  }

  // ---------------------------------------------------------------- ledgers

  lemma OrderTrail(log: Log, k: VaultKey, a: Order, fee: nat, j: VaultKey)
    ensures var r := TrailOf(log, j);
            TrailOf(OrderLog(log, k, a, fee), j) == if j == k then r.(deposits := r.deposits + 1, mints := r.mints + 1) else r
  {
    hide OrderLog, Total;
    OrderTotal(log, k, a, fee, DepositsOf(j));
    OrderTotal(log, k, a, fee, MintsOf(j));
    OrderTotal(log, k, a, fee, DeliveredFrom(j));
    OrderTotal(log, k, a, fee, RescuesOf(j));
  }

  lemma OrderAttributions(s: System, t: System, a: Order, fee: nat)
    requires AttributionsOk(s) && Executed(s, t, a, fee) && 0 !in s.series
    ensures AttributionsOk(t)
  {
    hide AttributionsOk, TrailOf, Executed, OrderLog;
    ExecutedWrites(s, t, a, fee);
    forall j: VaultKey
      ensures var r := TrailOf(s.log, j);
              TrailOf(t.log, j) == if j == OrderVault(s) then r.(deposits := r.deposits + 1, mints := r.mints + 1) else r
    {
      OrderTrail(s.log, OrderVault(s), a, fee, j);
    }
    NewVaultAttributed(s, t, OrderVault(s), a.maker, a.otoken, a.amount);
  }

  lemma NewVaultAttributed(s: System, t: System, k: VaultKey, maker: Key, otoken: Key, amount: u64)
    requires AttributionsOk(s) && k.owner == SettlerPda && k !in s.vaults && k in t.vaults && t.vaults == s.vaults[k := t.vaults[k]]
    requires t.vaults[k].otoken == otoken && t.vaults[k].short == amount && t.vaults[k].beneficiary.Wallet?
    requires t.attributions == s.attributions[k := VaultMM(maker, otoken, amount)] && t.series == s.series
    requires otoken != 0 && amount > 0 && s.custody.Keys <= t.custody.Keys && CustodyKey(maker, otoken) in t.custody
    requires forall j: VaultKey :: var r := TrailOf(s.log, j);
               TrailOf(t.log, j) == if j == k then r.(deposits := r.deposits + 1, mints := r.mints + 1) else r
    ensures AttributionsOk(t)
  {
    hide TrailOf;
    assert TrailOf(t.log, k) == Trail(1, 1, 0, 0);
  }

  lemma OrderDrift(s: System, t: System, a: Order, fee: nat, c: CustodyKey)
    requires DriftOk(s, c) && t.series == s.series && t.log == OrderLog(s.log, OrderVault(s), a, fee)
    requires OrderVault(s) !in s.attributions
    requires t.attributions == s.attributions[OrderVault(s) := VaultMM(a.maker, a.otoken, a.amount)]
    requires CustodyOf(s, CustodyKey(a.maker, a.otoken)) + a.amount <= U64_MAX
    requires t.custody == s.custody[CustodyKey(a.maker, a.otoken) := CustodyOf(s, CustodyKey(a.maker, a.otoken)) + a.amount]
    ensures DriftOk(t, c)
  {
    hide OrderLog;
    var k := OrderVault(s);
    var x := if c == CustodyKey(a.maker, a.otoken) then a.amount else 0;
    assert RemainingMap(t, c) == RemainingMap(s, c)[k := x];
    SumUpdate(RemainingMap(s, c), k, x);
    OrderTotal(s.log, k, a, fee, RedeemedBy(c));
  }

  lemma OrderBacked(s: System, t: System, a: Order, fee: nat, mint: Key)
    requires Backed(s, mint) && t.log == OrderLog(s.log, OrderVault(s), a, fee)
    requires CustodyOf(s, CustodyKey(a.maker, a.otoken)) + a.amount <= U64_MAX
    requires t.custody == s.custody[CustodyKey(a.maker, a.otoken) := CustodyOf(s, CustodyKey(a.maker, a.otoken)) + a.amount]
    requires t.Balance(CustodyPurse(mint)) == s.Balance(CustodyPurse(mint)) + (if mint == a.otoken then a.amount else 0)
                                              + (if PurseOf(a.accounts.treasury) == CustodyPurse(mint) then fee else 0)
    ensures Backed(t, mint)
  {
    hide OrderLog, Total;
    var c := CustodyKey(a.maker, a.otoken);
    var x := if mint == a.otoken then CustodyOf(s, c) + a.amount else 0;
    assert CustodyMap(t, mint) == CustodyMap(s, mint)[c := x];
    SumUpdate(CustodyMap(s, mint), c, x);
    OrderTotal(s.log, OrderVault(s), a, fee, GiftsTo(CustodyPurse(mint)));
  }

  lemma OrderFilled(s: System, t: System, a: Order, fee: nat, maker: Key)
    requires Executed(s, t, a, fee)
    ensures MapSum(FilledMap(t, maker)) == MapSum(FilledMap(s, maker)) + (if maker == a.maker then a.amount else 0)
  {
    hide OrderLog, Total;
    var q := a.Fill();
    var x := if maker == a.maker then FillOf(s, q).filled + a.amount else 0;
    assert FilledMap(t, maker) == FilledMap(s, maker)[q := x];
    SumUpdate(FilledMap(s, maker), q, x);
  }

  lemma OrderWritten(s: System, t: System, a: Order, fee: nat, maker: Key)
    requires Executed(s, t, a, fee)
    ensures MapSum(WrittenMap(t, maker)) == MapSum(WrittenMap(s, maker)) + (if maker == a.maker then a.amount else 0)
  {
    hide *;
    ExecutedWrites(s, t, a, fee);
    NewVaultWritten(s, t, OrderVault(s), a.maker, a.otoken, a.amount, maker);
  }

  lemma ExecutedWrites(s: System, t: System, a: Order, fee: nat)
    requires Executed(s, t, a, fee)
    ensures var k := OrderVault(s);
            && t.log == OrderLog(s.log, k, a, fee)
            && s.custody.Keys <= t.custody.Keys && CustodyKey(a.maker, a.otoken) in t.custody
            && k !in s.vaults && k !in s.attributions && k in t.vaults && t.vaults == s.vaults[k := t.vaults[k]]
            && t.vaults[k].otoken == a.otoken && t.vaults[k].beneficiary == Wallet(a.user) && a.amount > 0 && a.otoken in s.series
            && t.series == s.series && t.vaults[k].short == a.amount && t.attributions == s.attributions[k := VaultMM(a.maker, a.otoken, a.amount)]
  {
    hide OrderLog, Total, FillOf;
  }

  /** A fresh vault, attributed to one maker. */
  lemma NewVaultWritten(s: System, t: System, k: VaultKey, owner: Key, otoken: Key, amount: u64, maker: Key)
    requires k !in s.vaults && k !in s.attributions && k in t.vaults && t.vaults == s.vaults[k := t.vaults[k]]
    requires t.vaults[k].short == amount && t.attributions == s.attributions[k := VaultMM(owner, otoken, amount)]
    ensures MapSum(WrittenMap(t, maker)) == MapSum(WrittenMap(s, maker)) + (if maker == owner then amount else 0)
  {
    var x := if maker == owner then amount else 0;
    assert WrittenMap(t, maker) == WrittenMap(s, maker)[k := x];
    SumUpdate(WrittenMap(s, maker), k, x);
  }

  lemma OrderQuote(s: System, t: System, a: Order, fee: nat, q: QuoteKey)
    requires QuoteOk(s, q) && Executed(s, t, a, fee)
    ensures QuoteOk(t, q)
  {
    hide OrderLog;
    OrderTotal(s.log, OrderVault(s), a, fee, FilledUnder(q));
    OrderLimit(s.log, OrderVault(s), a, fee, q);
  }

  lemma OrderLimit(log: Log, k: VaultKey, a: Order, fee: nat, q: QuoteKey)
    ensures Limit(OrderLog(log, k, a, fee), q) >= Limit(log, q)
    ensures q == a.Fill() ==> Limit(OrderLog(log, k, a, fee), q) >= a.maxAmount
  {
    var written := OrderLog(log, k, a, fee).before;
    assert Limit(written.before.before, q) == Limit(log, q);
    assert Limit(written, q) == Limit(written.before.before, q);
  }

  lemma OrderKeeps(s: System, a: Order)
    requires SettlerInv(s) && ExecuteOrder(s, a).Ok? && 0 !in s.series
    ensures SettlerInv(ExecuteOrder(s, a).value)
  {
    hide ExecuteOrder, Executed, Paid, ComputePremiumSplit;
    var t := ExecuteOrder(s, a).value;
    ExecuteOrderEffect(s, a);
    OrderLedgers(s, t, a, ComputePremiumSplit(a.amount, a.bidPrice, s.settler.feeBps).value.fee);
  }

  lemma OrderFills(s: System, t: System, a: Order, fee: nat, maker: Key)
    requires FillsWritten(s, maker) && Executed(s, t, a, fee)
    ensures FillsWritten(t, maker)
  {
    hide Executed, FilledMap, WrittenMap;
    OrderFilled(s, t, a, fee, maker);
    OrderWritten(s, t, a, fee, maker);
  }

  lemma OrderLedgers(s: System, t: System, a: Order, fee: nat)
    requires SettlerInv(s) && Executed(s, t, a, fee) && 0 !in s.series
    ensures SettlerInv(t)
  {
    hide AttributionsOk, DriftOk, Backed, QuoteOk, FillsWritten, OrderLog;
    OrderAttributions(s, t, a, fee);
    forall c ensures DriftOk(t, c) { OrderDrift(s, t, a, fee, c); }
    forall mint ensures Backed(t, mint) { OrderBacked(s, t, a, fee, mint); }
    forall maker ensures FillsWritten(t, maker) { OrderFills(s, t, a, fee, maker); }
    forall q ensures QuoteOk(t, q) { OrderQuote(s, t, a, fee, q); }
  }
}
