/** Runs that show which allowances and conditions of the theorems are needed. */
module Failures {
  import opened Wrappers
  import opened Ints
  import opened Payoff
  import opened Sums
  import opened Model
  import opened Tokens
  import opened PoolBooks
  import opened Solvency
  import opened WindDown
  import opened Machine
  import opened Invariants
  import opened Progress
  import opened Bytes
  import opened SettlerBooks
  import opened TokenLaw
  import Controller
  import Oracle

  const ADMIN: Key := 1
  const WRITER: Key := 2
  const HOLDER: Key := 3
  const OTOKEN: Key := 50
  const CASH: Key := 60
  const UNDERLYING: Key := 70
  const RECEIVER: Key := 80

  // Token accounts.
  const HELD: Account := Account(Wallet(HOLDER), OTOKEN, 0)
  const HOLDER_CASH: Account := Account(Wallet(HOLDER), CASH, 0)
  const WRITER_CASH: Account := Account(Wallet(WRITER), CASH, 0)
  const POOL: Account := PoolAccount(CASH, 0)

  const VAULT: VaultKey := VaultKey(Wallet(WRITER), 0)

  lemma RunMore(s: System, steps: seq<Instruction>, i: Instruction)
    ensures Run(s, steps + [i]) == Step(Run(s, steps), i)
  {
    assert (steps + [i])[..|steps|] == steps;
  }

  lemma RunFirst(s: System, steps: seq<Instruction>, n: nat)
    requires n < |steps|
    ensures Run(s, steps[..n + 1]) == Step(Run(s, steps[..n]), steps[n])
  {
    assert steps[..n + 1] == steps[..n] + [steps[n]];
    RunMore(s, steps[..n], steps[n]);
  }

  lemma RunNothing(s: System, steps: seq<Instruction>)
    requires steps == []
    ensures Run(s, steps) == s
  {
  }

  /** A state whose controller and oracle are running under `ADMIN`. */
  ghost predicate Ready(s: System) {
    && Initial(s) && s.config.admin == ADMIN && !s.config.partiallyPaused && !s.config.fullyPaused && s.now == 0
    && s.oracle.admin == ADMIN && s.oracle.receiver == RECEIVER
  }

  lemma ReadyIsInitial(s: System)
    requires Ready(s)
    ensures Initial(s) && s.config.admin == ADMIN && !s.config.partiallyPaused && !s.config.fullyPaused && s.now == 0
    ensures s.oracle.admin == ADMIN && s.oracle.receiver == RECEIVER && s.oracle.thresholdBps > 0
  {
  }

  /** A put on half a unit of a six-decimal asset. */
  const PUT: Series := Series(UNDERLYING, CASH, CASH, 5_000_000_000, 1000, true, 6, 0)

  /** Two vaults write the smallest amount each; alone neither needs collateral. */
  const SMALL_PUTS: seq<Instruction> := [
    ToController(InitializeCounter(WRITER)),
    ToController(CreateOTokenInfo(ADMIN, false, OTOKEN, PUT)),
    ToController(OpenVault(WRITER, CASH, Wallet(WRITER))),
    ToController(OpenVault(WRITER, CASH, Wallet(WRITER))),
    ToController(MintOtoken(WRITER, 0, OTOKEN, HELD, 1)),
    ToController(MintOtoken(WRITER, 1, OTOKEN, HELD, 1))
  ]

  /** The worth of one and of two units of the put. */
  lemma HalfUnits()
    ensures PUT.Required(1) == Ok(0) && PUT.Worth(2) == 1
  {
    assert Pow10(5) == 100_000;
    assert Pow10(10) == 10_000_000_000;
    RequiredIsWorth(PUT.strike, true, 6, 1);
  }

  ghost function Opened(beneficiary: Key): Vault { Vault(CASH, 0, 0, 0, false, Wallet(beneficiary)) }

  /** The first two steps of each run: a vault counter and a series. */
  lemma SeriesStarted(s: System, info: Series)
    requires Ready(s) && info in {PUT, CALL}
    ensures Step(Step(s, ToController(InitializeCounter(WRITER))), ToController(CreateOTokenInfo(ADMIN, false, OTOKEN, info)))
         == s.(counters := map[Wallet(WRITER) := 0], series := map[OTOKEN := info])
  {
    hide ApplySettler, ApplyOracle, ApplyWorld, Controller.OpenVault, Controller.Deposit, Controller.Mint, Controller.Settle,
         Controller.Redeem, Controller.EmergencyWithdrawVault, Controller.SetExpiryPrice;
    var s1 := Step(s, ToController(InitializeCounter(WRITER)));
    assert s1 == s.(counters := map[Wallet(WRITER) := 0]);
  }

  lemma PutsOpened(s: System)
    requires Ready(s)
    ensures var t := Run(s, SMALL_PUTS[..4]);
            && t.series == map[OTOKEN := PUT] && t.config == s.config && t.oracle == s.oracle && t.now == 0
            && t.balances == NOTHING && t.supply == map[] && t.feeds == map[] && t.prices == map[]
            && t.vaults == map[VaultKey(Wallet(WRITER), 0) := Opened(WRITER), VaultKey(Wallet(WRITER), 1) := Opened(WRITER)]
  {
    hide Run, Step;
    SeriesStarted(s, PUT);
    TwoOpened(Step(Step(s, SMALL_PUTS[0]), SMALL_PUTS[1]));
    RunNothing(s, SMALL_PUTS[..0]);
    RunFirst(s, SMALL_PUTS, 0);
    RunFirst(s, SMALL_PUTS, 1);
    RunFirst(s, SMALL_PUTS, 2);
    RunFirst(s, SMALL_PUTS, 3);
  }

  lemma TwoOpened(s: System)
    requires s.counters == map[Wallet(WRITER) := 0] && s.vaults == map[]
    requires !s.config.fullyPaused && !s.config.partiallyPaused
    ensures var t := Step(Step(s, SMALL_PUTS[2]), SMALL_PUTS[3]);
            && t == s.(counters := t.counters, vaults := t.vaults, log := t.log)
            && t.vaults == map[VaultKey(Wallet(WRITER), 0) := Opened(WRITER), VaultKey(Wallet(WRITER), 1) := Opened(WRITER)]
  {
    hide ApplySettler, ApplyOracle, Controller.Deposit, Controller.Mint, Controller.Settle, Controller.Redeem,
         Controller.EmergencyWithdrawVault, Controller.SetExpiryPrice;
    var r := Step(s, SMALL_PUTS[2]);
    assert r.counters == map[Wallet(WRITER) := 1] && r.vaults == map[VaultKey(Wallet(WRITER), 0) := Opened(WRITER)];
  }

  lemma SmallestMint(s: System, id: nat)
    requires VaultKey(Wallet(WRITER), id) in s.vaults && s.vaults[VaultKey(Wallet(WRITER), id)] == Opened(WRITER)
    requires OTOKEN in s.series && s.series[OTOKEN] == PUT && s.now == 0 && s.Supply(OTOKEN) < 10
    requires !s.config.fullyPaused && !s.config.partiallyPaused
    ensures Controller.Mint(s, Wallet(WRITER), id, OTOKEN, HELD, 1).Ok?
  {
    hide GetRequiredCollateral;
    HalfUnits();
  }

  /** Minting the smallest amount only needs the vault to be open. */
  lemma SmallestMinted(s: System, id: nat)
    requires VaultKey(Wallet(WRITER), id) in s.vaults && s.vaults[VaultKey(Wallet(WRITER), id)] == Opened(WRITER)
    requires OTOKEN in s.series && s.series[OTOKEN] == PUT && s.now == 0 && s.Supply(OTOKEN) < 10
    requires !s.config.fullyPaused && !s.config.partiallyPaused
    ensures var t := Step(s, ToController(MintOtoken(WRITER, id, OTOKEN, HELD, 1)));
            && t == s.(vaults := t.vaults, balances := t.balances, supply := t.supply, log := t.log)
            && t.vaults == s.vaults[VaultKey(Wallet(WRITER), id) := Opened(WRITER).(otoken := OTOKEN, short := 1)]
            && t.supply == s.supply[OTOKEN := s.Supply(OTOKEN) + 1] && t.Balance(PoolPurse(CASH)) == s.Balance(PoolPurse(CASH))
            && forall a :: t.Funds(a) == s.Funds(a) + (if a == HELD then 1 else 0)
  {
    hide Controller.Mint, ApplySettler, ApplyOracle, ApplyWorld;
    SmallestMint(s, id);
    MintMoves(s, Wallet(WRITER), id, OTOKEN, HELD, 1);
    MintFunds(s, Wallet(WRITER), id, OTOKEN, HELD, 1);
  }

  /** After both mints two oTokens are out and the pool is empty. */
  lemma PutsMinted(s: System)
    requires Ready(s)
    ensures var t := Run(s, SMALL_PUTS);
            && t.series == map[OTOKEN := PUT] && t.Supply(OTOKEN) == 2 && t.Supply(CASH) == 0 && t.Balance(PoolPurse(CASH)) == 0
            && (forall a :: t.Funds(a) == if a == HELD then 2 else 0) && t.config == s.config && t.oracle == s.oracle && t.now == 0
            && t.feeds == map[] && t.prices == map[]
            && VAULT in t.vaults && t.vaults[VAULT] == Opened(WRITER).(otoken := OTOKEN, short := 1)
            && !t.config.fullyPaused && !t.config.partiallyPaused
  {
    hide Step, Ready, Run;
    PutsOpened(s);
    ReadyIsInitial(s);
    SmallestMinted(Run(s, SMALL_PUTS[..4]), 0);
    RunFirst(s, SMALL_PUTS, 4);
    SmallestMinted(Run(s, SMALL_PUTS[..5]), 1);
    RunFirst(s, SMALL_PUTS, 5);
    assert SMALL_PUTS[..6] == SMALL_PUTS;
  }

  /** Rounding each vault down on its own can leave holders one unit short, in a
      run without any exit: the allowance for rounding is needed. */
  lemma RoundingNeedsDust(s: System)
    requires Ready(s)
    ensures var t, q: Forecast := Run(s, SMALL_PUTS), _ => 1;
            !ExactlySolvent(t, q, CASH) && Solvent(t, q, CASH)
  {
    hide Run, Inv, SeriesBooks, Step;
    var t, q: Forecast := Run(s, SMALL_PUTS), _ => 1;
    ExitFreeIsClean(s, SMALL_PUTS);
    CleanRunKeeps(s, SMALL_PUTS);
    PoolsSolvent(t, q, CASH);
    PutsMinted(s);
    OnePutUnitOwed(t);
    if ExactlySolvent(t, q, CASH) {
      EachWithin(t, q, CASH, 0);
    }
  }

  lemma OnePutUnitOwed(t: System)
    requires t.series == map[OTOKEN := PUT] && t.Supply(OTOKEN) == 2
    ensures OwedMap(t, _ => 1, CASH)[OTOKEN] == 1
  {
    HalfUnits();
  }

  // ---------------------------------------------------------------- the same puts at expiry

  const FEED_ID: seq<byte> := ToLE(7, 32)

  /** A fully verified update that puts the underlying at one unit. */
  const UPDATE: Oracle.PriceAccount := Oracle.PriceAccount(
    RECEIVER, Oracle.Encode(ToLE(0, 32), Oracle.Full, FEED_ID, Oracle.PythPrice(1, 0, -8, 1000), []))

  /** The series expires and gets its price. */
  const TO_EXPIRY: seq<Instruction> := [
    ToOracle(RegisterFeed(ADMIN, UNDERLYING, FEED_ID)),
    Outside(Tick(1000)),
    ToOracle(FinalizePrice(ADMIN, UNDERLYING, 1000, 1, UPDATE)),
    ToController(SetSeriesPrice(ADMIN, OTOKEN))
  ]

  lemma UpdateAccepted(s: System)
    requires s.oracle.admin == ADMIN && s.oracle.receiver == RECEIVER && s.oracle.thresholdBps > 0
    requires s.feeds == map[UNDERLYING := Feed(FEED_ID, true)] && s.prices == map[] && s.now == 1000
    ensures Oracle.SetExpiryPrice(s, ADMIN, UNDERLYING, 1000, 1, UPDATE) == Ok(s.(prices := map[PriceKey(UNDERLYING, 1000) := 1]))
  {
    hide Oracle.ParsePrice, Oracle.Encode;
    Oracle.ParseInvertsEncode(RECEIVER, ToLE(0, 32), Oracle.Full, FEED_ID, Oracle.PythPrice(1, 0, -8, 1000), []);
  }

  /** The first half: the feed is registered and the time has come. */
  lemma ExpiryReached(s: System)
    requires s.oracle.admin == ADMIN && s.feeds == map[] && s.now == 0
    ensures Step(Step(s, TO_EXPIRY[0]), TO_EXPIRY[1]) == s.(now := 1000, feeds := map[UNDERLYING := Feed(FEED_ID, true)])
  {
    hide Oracle.SetExpiryPrice, ApplySettler, ApplyController;
    var s1 := Step(s, TO_EXPIRY[0]);
    assert s1 == s.(feeds := map[UNDERLYING := Feed(FEED_ID, true)]);
  }

  lemma PriceFinalized(s: System)
    requires s.oracle.admin == ADMIN && s.oracle.receiver == RECEIVER && s.oracle.thresholdBps > 0
    requires s.feeds == map[UNDERLYING := Feed(FEED_ID, true)] && s.prices == map[] && s.now == 1000
    ensures Step(s, ToOracle(FinalizePrice(ADMIN, UNDERLYING, 1000, 1, UPDATE))) == s.(prices := map[PriceKey(UNDERLYING, 1000) := 1])
  {
    hide Oracle.SetExpiryPrice, ApplySettler, ApplyController, ApplyWorld;
    UpdateAccepted(s);
  }

  lemma PutPriced(s: System)
    requires s.config.admin == ADMIN && s.series == map[OTOKEN := PUT] && s.now == 1000
    requires s.prices == map[PriceKey(UNDERLYING, 1000) := 1]
    ensures Step(s, ToController(SetSeriesPrice(ADMIN, OTOKEN))) == s.(series := map[OTOKEN := PUT.(price := 1)])
  {
    hide ApplySettler, ApplyOracle, ApplyWorld, Controller.OpenVault, Controller.Deposit, Controller.Mint, Controller.Settle,
         Controller.Redeem, Controller.EmergencyWithdrawVault;
  }

  lemma PutsExpired(s: System)
    requires s.oracle.admin == ADMIN && s.oracle.receiver == RECEIVER && s.oracle.thresholdBps > 0 && s.config.admin == ADMIN
    requires s.series == map[OTOKEN := PUT] && s.feeds == map[] && s.prices == map[] && s.now == 0
    ensures var t := Run(s, TO_EXPIRY);
            && t == s.(now := 1000, feeds := t.feeds, prices := t.prices, series := t.series)
            && t.series == map[OTOKEN := PUT.(price := 1)]
  {
    hide Run, Step;
    ExpiryReached(s);
    var s2 := Step(Step(s, TO_EXPIRY[0]), TO_EXPIRY[1]);
    PriceFinalized(s2);
    PutPriced(Step(s2, TO_EXPIRY[2]));
    RunNothing(s, TO_EXPIRY[..0]);
    RunFirst(s, TO_EXPIRY, 0);
    RunFirst(s, TO_EXPIRY, 1);
    RunFirst(s, TO_EXPIRY, 2);
    RunFirst(s, TO_EXPIRY, 3);
    assert TO_EXPIRY[..4] == TO_EXPIRY;
  }

  lemma TwoUnitsDue()
    ensures PUT.(price := 1).Payout(2) == Ok(1) && Due(PUT.(price := 1), 2) == 1
  {
    HalfUnits();
    RequiredIsWorth(PUT.strike, true, 6, 2);
  }

  /** A redemption can lack funds: in a run without any exit the holder of both
      puts, who is owed one unit, is refused because the pool is empty. */
  lemma RedemptionCanFail(s: System)
    requires Ready(s)
    ensures var t := Run(Run(s, SMALL_PUTS), TO_EXPIRY);
            && Redeemable(t, Wallet(HOLDER), OTOKEN, 0, 2)
            && Apply(t, ToController(Redeem(HOLDER, OTOKEN, HELD, HOLDER_CASH, POOL, 2, 1)))
               == Err(InsufficientFunds)
  {
    hide Run, Ready, Step, Initial, RedeemOf, GetPayout, Payoff.Worth;
    ReadyIsInitial(s);
    PutsMinted(s);
    var r := Run(s, SMALL_PUTS);
    PutsExpired(r);
    var t := Run(r, TO_EXPIRY);
    TwoUnitsDue();
    ReachableHolds(s, SMALL_PUTS);
    SameLedger(r, t);
    RedeemPays(t, Wallet(HOLDER), OTOKEN, 0, 0, 0, 2, 1);
    assert RedeemOf(t, Wallet(HOLDER), OTOKEN, 0, 0, 0, 2, 1) == Err(InsufficientFunds);
    RedeemIsRedeem(t);
  }

  lemma SameLedger(s: System, t: System)
    requires t.balances == s.balances && t.supply == s.supply
    ensures forall a :: t.Funds(a) == s.Funds(a)
    ensures forall p :: t.Balance(p) == s.Balance(p)
    ensures forall mint :: t.Supply(mint) == s.Supply(mint)
  {
  }

  /** In a reachable state no account holds more than its purse. */
  lemma ReachableHolds(s: System, steps: seq<Instruction>)
    requires Initial(s)
    ensures forall a :: Run(s, steps).Funds(a) <= Run(s, steps).Balance(PurseOf(a))
  {
    hide Initial, Run, Lawful;
    RunLawful(s, steps);
    forall a ensures Run(s, steps).Funds(a) <= Run(s, steps).Balance(PurseOf(a)) {
      HeldWithinSupply(Run(s, steps), PurseOf(a));
    }
  }

  lemma RedeemIsRedeem(t: System)
    requires OTOKEN in t.series && t.series[OTOKEN].collateralMint == CASH
    ensures Apply(t, ToController(Redeem(HOLDER, OTOKEN, HELD, HOLDER_CASH, POOL, 2, 1)))
         == RedeemOf(t, Wallet(HOLDER), OTOKEN, 0, 0, 0, 2, 1)
  {
    hide Controller.Redeem;
  }

  // ---------------------------------------------------------------- a settlement refused

  /** Before expiry the writer adds one unit to its first vault. */
  const LATE_DEPOSIT: seq<Instruction> := [
    Outside(Issue(WRITER_CASH, 1)),
    ToController(DepositCollateral(WRITER, 0, WRITER_CASH, POOL, 1, 1))
  ]

  const REDEEM_BOTH: seq<Instruction> := [ToController(Redeem(HOLDER, OTOKEN, HELD, HOLDER_CASH, POOL, 2, 1))]

  ghost function RunLate(s: System): System { Run(Run(s, SMALL_PUTS), LATE_DEPOSIT) }

  ghost function RunRedeemed(s: System): System { Run(Run(RunLate(s), TO_EXPIRY), REDEEM_BOTH) }

  lemma OneIssued(s: System)
    requires s.series == map[OTOKEN := PUT] && s.Supply(CASH) == 0
    ensures var t := Step(s, LATE_DEPOSIT[0]);
            && t == s.(balances := t.balances, supply := t.supply, log := t.log) && t.Supply(OTOKEN) == s.Supply(OTOKEN)
            && (forall a :: t.Funds(a) == s.Funds(a) + (if a == WRITER_CASH then 1 else 0))
            && (forall p :: t.Balance(p) == s.Balance(p) + (if p == PurseOf(WRITER_CASH) then 1 else 0))
  {
    hide ApplySettler, ApplyOracle, ApplyController;
  }

  lemma OneDeposited(s: System)
    requires VAULT in s.vaults && s.vaults[VAULT] == Opened(WRITER).(otoken := OTOKEN, short := 1)
    requires !s.config.fullyPaused && !s.config.partiallyPaused
    requires s.Funds(WRITER_CASH) == 1 && s.Balance(PurseOf(WRITER_CASH)) >= 1
    ensures var t := Step(s, LATE_DEPOSIT[1]);
            && t == s.(balances := t.balances, vaults := t.vaults, log := t.log)
            && VAULT in t.vaults && t.vaults[VAULT] == Opened(WRITER).(otoken := OTOKEN, short := 1, collateral := 1)
            && (forall a :: t.Funds(a) == s.Funds(a) - (if a == WRITER_CASH then 1 else 0) + (if a == POOL then 1 else 0))
  {
    hide Controller.Deposit, ApplySettler, ApplyOracle, ApplyWorld;
    UnitGoes(s);
    DepositMoves(s, Wallet(WRITER), 0, WRITER_CASH, POOL, 1, 1);
    DepositFunds(s, Wallet(WRITER), 0, WRITER_CASH, POOL, 1, 1);
  }

  lemma UnitGoes(s: System)
    requires VAULT in s.vaults && s.vaults[VAULT] == Opened(WRITER).(otoken := OTOKEN, short := 1)
    requires !s.config.fullyPaused && !s.config.partiallyPaused
    requires s.Funds(WRITER_CASH) == 1 && s.Balance(PurseOf(WRITER_CASH)) >= 1
    ensures Controller.Deposit(s, Wallet(WRITER), 0, WRITER_CASH, POOL, 1, 1).Ok?
  {
    hide Transfer;
    assert Transfer(s, Wallet(WRITER), WRITER_CASH, POOL, 1, 1).Ok? by { TransferGoes(s, Wallet(WRITER), WRITER_CASH, POOL, 1); }
    TransferFunds(s, Wallet(WRITER), WRITER_CASH, POOL, 1, 1);
  }

  lemma TransferGoes(s: System, owner: Holder, from: Account, to: Account, amount: nat)
    requires from.owner == owner && from.mint == to.mint && amount <= s.Funds(from) && amount <= s.Balance(PurseOf(from))
    ensures Transfer(s, owner, from, to, amount, amount).Ok?
  {
  }

  lemma LateDeposited(s: System)
    requires Ready(s)
    ensures var t := RunLate(s);
            && t.series == map[OTOKEN := PUT] && t.feeds == map[] && t.prices == map[] && t.now == 0
            && t.config == s.config && t.oracle == s.oracle && !t.config.fullyPaused
            && VAULT in t.vaults && t.vaults[VAULT] == Opened(WRITER).(otoken := OTOKEN, short := 1, collateral := 1)
            && (forall a :: t.Funds(a) == if a == HELD then 2 else if a == POOL then 1 else 0)
  {
    hide Run, Step, Ready, Initial;
    ReadyIsInitial(s);
    PutsMinted(s);
    var r := Run(s, SMALL_PUTS);
    OneIssued(r);
    OneDeposited(Step(r, LATE_DEPOSIT[0]));
    RunNothing(r, LATE_DEPOSIT[..0]);
    RunFirst(r, LATE_DEPOSIT, 0);
    RunFirst(r, LATE_DEPOSIT, 1);
    assert LATE_DEPOSIT[..2] == LATE_DEPOSIT;
  }

  lemma BothRedeemed(s: System)
    requires Inv(s) && Lawful(s) && s.series == map[OTOKEN := PUT.(price := 1)] && !s.config.fullyPaused
    requires s.Funds(HELD) == 2 && s.Funds(POOL) == 1
    ensures var t := Step(s, REDEEM_BOTH[0]);
            t == s.(balances := t.balances, supply := t.supply, log := t.log) && t.Funds(POOL) == 0
  {
    hide Inv, Lawful, RedeemOf, Controller.Redeem, GetPayout, Payoff.Worth;
    TwoUnitsDue();
    RedemptionIff(s, Wallet(HOLDER), OTOKEN, 0, 0, 0, 2, 1);
    RedeemIsRedeem(s);
    RedeemMoves(s, Wallet(HOLDER), OTOKEN, HELD, HOLDER_CASH, POOL, 2, 1);
    RedeemFunds(s, Wallet(HOLDER), OTOKEN, HELD, HOLDER_CASH, POOL, 2, 1);
  }

  lemma OneUnitFree()
    ensures PUT.(price := 1).Payout(1) == Ok(0)
  {
    HalfUnits();
  }

  /** A settlement can lack funds too: the holder of both puts has taken the unit
      that a vault put in after writing, and the vault, which owes nothing on its
      one unit, cannot have it back. */
  lemma SettlementCanFail(s: System)
    requires Ready(s)
    ensures var t := RunRedeemed(s);
            && Settleable(t, VAULT) && t.vaults[VAULT].collateral == 1
            && Apply(t, ToController(SettleVault(ADMIN, VAULT, POOL, WRITER_CASH, 1))) == Err(InsufficientFunds)
  {
    hide Run, Ready, Step, Initial, GetPayout, Inv, SettlerInv, Lawful, SettleOf;
    ReadyIsInitial(s);
    LateDeposited(s);
    PutsExpired(RunLate(s));
    var x, t := Run(RunLate(s), TO_EXPIRY), RunRedeemed(s);
    LateLaws(s);
    SameLedger(RunLate(s), x);
    BothRedeemed(x);
    RunNothing(x, REDEEM_BOTH[..0]);
    RunFirst(x, REDEEM_BOTH, 0);
    assert REDEEM_BOTH[..1] == REDEEM_BOTH;
    OneUnitFree();
    HeldWithinSupply(t, PoolPurse(CASH));
    SettlePays(t, VAULT, 0, 0, 1, 0);
    SettleIsSettle(t);
  }

  lemma LateLaws(s: System)
    requires Initial(s)
    ensures Inv(Run(RunLate(s), TO_EXPIRY)) && Lawful(Run(RunLate(s), TO_EXPIRY)) && Lawful(RunRedeemed(s))
  {
    hide Initial, Run, Inv, SettlerInv, Lawful, Progressed;
    RunKeeps(s, SMALL_PUTS);
    RunProgress(Run(s, SMALL_PUTS), LATE_DEPOSIT);
    RunProgress(RunLate(s), TO_EXPIRY);
    RunLawful(s, SMALL_PUTS);
    StaysLawful(Run(s, SMALL_PUTS), LATE_DEPOSIT);
    StaysLawful(RunLate(s), TO_EXPIRY);
    StaysLawful(Run(RunLate(s), TO_EXPIRY), REDEEM_BOTH);
  }

  lemma SettleIsSettle(t: System)
    requires VAULT in t.vaults && t.vaults[VAULT].collateralMint == CASH && t.vaults[VAULT].beneficiary == Wallet(WRITER)
    requires t.config.admin == ADMIN
    ensures Apply(t, ToController(SettleVault(ADMIN, VAULT, POOL, WRITER_CASH, 1))) == SettleOf(t, VAULT, 0, 0, 1)
  {
    hide Controller.Settle;
  }

  // ---------------------------------------------------------------- direct exits

  /** A call on an eight-decimal asset: one unit of collateral for each oToken. */
  const CALL: Series := Series(CASH, UNDERLYING, CASH, 100, 1000, false, 8, 0)

  /** The writer has ten units of cash and nobody has anything else. */
  const TEN: Ledger := Ledger(map[WRITER_CASH := 10], map[PurseOf(WRITER_CASH) := 10])

  /** Write ten calls to a holder, pause the controller, and leave. */
  const WRITE_AND_LEAVE: seq<Instruction> := [
    ToController(InitializeCounter(WRITER)),
    ToController(CreateOTokenInfo(ADMIN, false, OTOKEN, CALL)),
    Outside(Issue(WRITER_CASH, 10)),
    ToController(OpenVault(WRITER, CASH, Wallet(WRITER))),
    ToController(DepositCollateral(WRITER, 0, WRITER_CASH, POOL, 10, 10)),
    ToController(MintOtoken(WRITER, 0, OTOKEN, HELD, 10)),
    ToController(SetFullyPaused(ADMIN, true)),
    ToController(EmergencyWithdrawVault(WRITER, 0, POOL, WRITER_CASH, 10))
  ]

  lemma WriterFunded(s: System)
    requires s.series == map[OTOKEN := CALL] && s.balances == NOTHING && s.supply == map[]
    ensures var t := Step(s, WRITE_AND_LEAVE[2]);
            && t == s.(balances := TEN, supply := t.supply, log := t.log)
            && t.Supply(OTOKEN) == 0
  {
    hide ApplySettler, ApplyOracle, ApplyController;
  }

  lemma CallVaultOpened(s: System)
    requires s.counters == map[Wallet(WRITER) := 0] && s.vaults == map[]
    requires !s.config.fullyPaused && !s.config.partiallyPaused
    ensures var t := Step(s, WRITE_AND_LEAVE[3]);
            && t == s.(counters := t.counters, vaults := t.vaults, log := t.log)
            && t.vaults == map[VAULT := Opened(WRITER)]
  {
    hide ApplySettler, ApplyOracle, ApplyWorld, Controller.Deposit, Controller.Mint, Controller.Settle, Controller.Redeem,
         Controller.EmergencyWithdrawVault, Controller.SetExpiryPrice;
  }

  /** The accounts before the deposit. */
  lemma CallOpened(s: System)
    requires Ready(s)
    ensures var t := Run(s, WRITE_AND_LEAVE[..4]);
            && t.series == map[OTOKEN := CALL] && t.vaults == map[VAULT := Opened(WRITER)] && t.now == 0
            && t.config == s.config && t.balances == TEN && t.Supply(OTOKEN) == 0
  {
    hide Run, Step;
    SeriesStarted(s, CALL);
    var s2 := Step(Step(s, WRITE_AND_LEAVE[0]), WRITE_AND_LEAVE[1]);
    WriterFunded(s2);
    CallVaultOpened(Step(s2, WRITE_AND_LEAVE[2]));
    RunNothing(s, WRITE_AND_LEAVE[..0]);
    RunFirst(s, WRITE_AND_LEAVE, 0);
    RunFirst(s, WRITE_AND_LEAVE, 1);
    RunFirst(s, WRITE_AND_LEAVE, 2);
    RunFirst(s, WRITE_AND_LEAVE, 3);
  }

  lemma CallFunded(s: System)
    requires s.series == map[OTOKEN := CALL] && s.vaults == map[VAULT := Opened(WRITER)] && s.now == 0
    requires !s.config.fullyPaused && !s.config.partiallyPaused && s.balances == TEN
    ensures var t := Step(s, WRITE_AND_LEAVE[4]);
            && t.vaults == map[VAULT := Opened(WRITER).(collateral := 10)]
            && t.Balance(PoolPurse(CASH)) == 10 && t.Funds(POOL) == 10
            && t == s.(vaults := t.vaults, balances := t.balances, log := t.log)
  {
    hide Controller.Deposit, ApplySettler, ApplyOracle, ApplyWorld;
    DepositGoes(s);
    DepositMoves(s, Wallet(WRITER), 0, WRITER_CASH, POOL, 10, 10);
    DepositFunds(s, Wallet(WRITER), 0, WRITER_CASH, POOL, 10, 10);
  }

  lemma DepositGoes(s: System)
    requires s.vaults == map[VAULT := Opened(WRITER)] && !s.config.fullyPaused && !s.config.partiallyPaused && s.balances == TEN
    ensures Controller.Deposit(s, Wallet(WRITER), 0, WRITER_CASH, POOL, 10, 10).Ok?
    ensures s.Balance(PoolPurse(CASH)) == 0 && s.Funds(POOL) == 0
  {
    hide Transfer;
    FundsThere(s);
    TransferFunds(s, Wallet(WRITER), WRITER_CASH, POOL, 10, 10);
    assert s.Funds(POOL) == 0;
  }

  lemma FundsThere(s: System)
    requires s.balances == TEN
    ensures Transfer(s, Wallet(WRITER), WRITER_CASH, POOL, 10, 10).Ok?
  {
  }

  lemma TenUnits()
    ensures CALL.Required(10) == Ok(10) && CALL.Worth(10) == 10
  {
    assert Pow10(0) == 1;
    RequiredIsWorth(CALL.strike, false, 8, 10);
  }

  lemma CallMints(s: System)
    requires s.series == map[OTOKEN := CALL] && s.vaults == map[VAULT := Opened(WRITER).(collateral := 10)] && s.now == 0
    requires !s.config.fullyPaused && !s.config.partiallyPaused && s.Supply(OTOKEN) == 0
    ensures Controller.Mint(s, Wallet(WRITER), 0, OTOKEN, HELD, 10).Ok?
  {
    hide GetRequiredCollateral;
    TenUnits();
  }

  lemma CallMinted(s: System)
    requires s.series == map[OTOKEN := CALL] && s.vaults == map[VAULT := Opened(WRITER).(collateral := 10)] && s.now == 0
    requires !s.config.fullyPaused && !s.config.partiallyPaused && s.Supply(OTOKEN) == 0
    ensures var t := Step(s, WRITE_AND_LEAVE[5]);
            && t.vaults == map[VAULT := Opened(WRITER).(collateral := 10, otoken := OTOKEN, short := 10)]
            && t.Supply(OTOKEN) == 10 && t.Balance(PoolPurse(CASH)) == s.Balance(PoolPurse(CASH)) && t.Funds(POOL) == s.Funds(POOL)
            && t == s.(vaults := t.vaults, balances := t.balances, supply := t.supply, log := t.log)
  {
    hide Controller.Mint, ApplySettler, ApplyOracle;
    CallMints(s);
    MintMoves(s, Wallet(WRITER), 0, OTOKEN, HELD, 10);
    MintFunds(s, Wallet(WRITER), 0, OTOKEN, HELD, 10);
  }

  lemma CallLeft(s: System)
    requires s.vaults == map[VAULT := Opened(WRITER).(collateral := 10, otoken := OTOKEN, short := 10)]
    requires s.config.admin == ADMIN && s.Balance(PoolPurse(CASH)) == 10 && s.Funds(POOL) == 10
    ensures var t := Step(Step(s, WRITE_AND_LEAVE[6]), WRITE_AND_LEAVE[7]);
            t.Balance(PoolPurse(CASH)) == 0 && t.supply == s.supply && t.series == s.series
  {
    var p := Step(s, WRITE_AND_LEAVE[6]);
    assert p == s.(config := s.config.(fullyPaused := true));
  }

  /** A direct exit leaves the holder of ten calls with nothing behind them: the
      pool is empty and the allowance for rounding is zero. */
  lemma DirectExitStrandsHolders(s: System)
    requires Ready(s)
    ensures var t := Run(s, WRITE_AND_LEAVE);
            !Solvent(t, _ => 200, CASH) && MapSum(LossMap(t, CASH)) == 0
  {
    hide Run, Inv, Ready, Step;
    var t := Run(s, WRITE_AND_LEAVE);
    LeftEmpty(s);
    RunKeeps(s, WRITE_AND_LEAVE) by { ReadyIsInitial(s); }
    TenUnits();
    ExactSeriesLossless(t, CASH);
    assert OwedMap(t, _ => 200, CASH)[OTOKEN] == 10;
    if Solvent(t, _ => 200, CASH) {
      EachWithin(t, _ => 200, CASH, 0);
    }
  }

  lemma LeftEmpty(s: System)
    requires Ready(s)
    ensures var t := Run(s, WRITE_AND_LEAVE);
            t.series == map[OTOKEN := CALL] && t.Supply(OTOKEN) == 10 && t.Balance(PoolPurse(CASH)) == 0
  {
    hide Run, Ready, Step, Initial;
    ReadyIsInitial(s);
    CallOpened(s);
    var s4 := Run(s, WRITE_AND_LEAVE[..4]);
    CallFunded(s4);
    RunFirst(s, WRITE_AND_LEAVE, 4);
    CallMinted(Run(s, WRITE_AND_LEAVE[..5]));
    RunFirst(s, WRITE_AND_LEAVE, 5);
    CallLeft(Run(s, WRITE_AND_LEAVE[..6]));
    RunFirst(s, WRITE_AND_LEAVE, 6);
    RunFirst(s, WRITE_AND_LEAVE, 7);
    assert WRITE_AND_LEAVE[..8] == WRITE_AND_LEAVE;
  }

  // ---------------------------------------------------------------- a pool in two accounts

  const POOL_TOO: Account := PoolAccount(CASH, 1)

  /** A vault's collateral arrives in two accounts of the pool; then everything is
      paused. */
  const SPLIT_POOL: seq<Instruction> := [
    ToController(InitializeCounter(WRITER)),
    ToController(CreateOTokenInfo(ADMIN, false, OTOKEN, CALL)),
    Outside(Issue(WRITER_CASH, 10)),
    ToController(OpenVault(WRITER, CASH, Wallet(WRITER))),
    ToController(DepositCollateral(WRITER, 0, WRITER_CASH, POOL, 5, 5)),
    ToController(DepositCollateral(WRITER, 0, WRITER_CASH, POOL_TOO, 5, 5)),
    ToController(SetFullyPaused(ADMIN, true))
  ]

  lemma FiveDeposited(s: System, pool: nat)
    requires VAULT in s.vaults && s.vaults[VAULT] in {Opened(WRITER), Opened(WRITER).(collateral := 5)}
    requires !s.config.fullyPaused && !s.config.partiallyPaused
    requires s.Funds(WRITER_CASH) >= 5 && s.Balance(PurseOf(WRITER_CASH)) >= 5
    ensures var t := Step(s, ToController(DepositCollateral(WRITER, 0, WRITER_CASH, PoolAccount(CASH, pool), 5, 5)));
            && t == s.(balances := t.balances, vaults := t.vaults, log := t.log)
            && VAULT in t.vaults && t.vaults[VAULT] == s.vaults[VAULT].(collateral := s.vaults[VAULT].collateral + 5)
            && (forall a :: t.Funds(a) == s.Funds(a) - (if a == WRITER_CASH then 5 else 0) + (if a == PoolAccount(CASH, pool) then 5 else 0))
            && (forall p :: t.Balance(p) == s.Balance(p) - (if p == PurseOf(WRITER_CASH) then 5 else 0) + (if p == PoolPurse(CASH) then 5 else 0))
  {
    hide Controller.Deposit, ApplySettler, ApplyOracle, ApplyWorld;
    FiveGo(s, PoolAccount(CASH, pool));
    DepositMoves(s, Wallet(WRITER), 0, WRITER_CASH, PoolAccount(CASH, pool), 5, 5);
    DepositFunds(s, Wallet(WRITER), 0, WRITER_CASH, PoolAccount(CASH, pool), 5, 5);
  }

  lemma FiveGo(s: System, pool: Account)
    requires VAULT in s.vaults && s.vaults[VAULT] in {Opened(WRITER), Opened(WRITER).(collateral := 5)}
    requires !s.config.fullyPaused && !s.config.partiallyPaused && PurseOf(pool) == PoolPurse(CASH)
    requires s.Funds(WRITER_CASH) >= 5 && s.Balance(PurseOf(WRITER_CASH)) >= 5
    ensures Controller.Deposit(s, Wallet(WRITER), 0, WRITER_CASH, pool, 5, 5).Ok?
  {
    hide Transfer;
    assert Transfer(s, Wallet(WRITER), WRITER_CASH, pool, 5, 5).Ok? by { TransferGoes(s, Wallet(WRITER), WRITER_CASH, pool, 5); }
    TransferFunds(s, Wallet(WRITER), WRITER_CASH, pool, 5, 5);
  }

  lemma TenOnly(s: System)
    requires s.balances == TEN
    ensures forall a :: s.Funds(a) == if a == WRITER_CASH then 10 else 0
    ensures forall p :: s.Balance(p) == if p == PurseOf(WRITER_CASH) then 10 else 0
  {
  }

  lemma AllPaused(s: System)
    requires s.config.admin == ADMIN
    ensures Step(s, ToController(SetFullyPaused(ADMIN, true))) == s.(config := s.config.(fullyPaused := true))
  {
    hide ApplySettler, ApplyOracle, ApplyWorld, Controller.OpenVault, Controller.Deposit, Controller.Mint, Controller.Settle,
         Controller.Redeem, Controller.EmergencyWithdrawVault;
  }

  lemma PoolSplit(s: System)
    requires Ready(s)
    ensures var t := Run(s, SPLIT_POOL);
            && VAULT in t.vaults && t.vaults[VAULT] == Opened(WRITER).(collateral := 10) && t.config.fullyPaused
            && t.Balance(PoolPurse(CASH)) == 10
            && (forall n :: t.Funds(PoolAccount(CASH, n)) == if n < 2 then 5 else 0)
  {
    hide Run, Step, Ready, Initial;
    ReadyIsInitial(s);
    CallOpened(s);
    assert SPLIT_POOL[..4] == WRITE_AND_LEAVE[..4];
    TenOnly(Run(s, SPLIT_POOL[..4]));
    FiveDeposited(Run(s, SPLIT_POOL[..4]), 0);
    RunFirst(s, SPLIT_POOL, 4);
    FiveDeposited(Run(s, SPLIT_POOL[..5]), 1);
    RunFirst(s, SPLIT_POOL, 5);
    AllPaused(Run(s, SPLIT_POOL[..6]));
    RunFirst(s, SPLIT_POOL, 6);
    assert SPLIT_POOL[..7] == SPLIT_POOL;
    SameLedger(Run(s, SPLIT_POOL[..6]), Run(s, SPLIT_POOL));
  }

  /** What a pool holds in two accounts no single payment can reach: ten units are
      there for the vault's ten, and the exit fails out of every account. */
  lemma SplitPoolRefuses(s: System, pool: nat, to: nat, credited: nat)
    requires Ready(s)
    ensures var t := Run(s, SPLIT_POOL);
            && VAULT in t.vaults && t.Balance(PoolPurse(CASH)) == 10 == t.vaults[VAULT].collateral
            && Apply(t, ToController(EmergencyWithdrawVault(WRITER, 0, PoolAccount(CASH, pool), Account(Wallet(WRITER), CASH, to), credited)))
               == Err(InsufficientFunds)
  {
    hide Run, Ready;
    PoolSplit(s);
    var t := Run(s, SPLIT_POOL);
    assert t.Funds(PoolAccount(CASH, pool)) <= 5;
  }
}
