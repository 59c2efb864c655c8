/** What holds in every state a run can reach, and from one reachable state to
    the next. */
module Theorems {
  import opened Wrappers
  import opened Ints
  import opened Payoff
  import opened Sums
  import opened Model
  import opened Tokens
  import opened Settler
  import opened SettlerBooks
  import opened CustodySteps
  import opened DeliverySteps
  import opened PoolBooks
  import opened Solvency
  import opened TokenLaw
  import opened WindDown
  import opened SettlerPools
  import opened Machine
  import opened Invariants
  import opened Progress
  import Controller

  // ---------------------------------------------------------------- solvency

  /** Pool solvency, over runs: whatever anyone did, as long as emergency exits
      left no oTokens behind, each pool together with one unit for each writer
      after the first of each of its inexact series covers every claim and the
      whole outstanding supply, at any prices still to be set. */
  lemma RunSolvent(s: System, steps: seq<Instruction>, q: Forecast, mint: Key)
    requires Initial(s) && CleanRun(s, steps)
    ensures var t := Run(s, steps);
            MapSum(ClaimMap(t, q, mint)) + MapSum(OwedMap(t, q, mint)) <= t.Balance(PoolPurse(mint)) + MapSum(DustMap(t, mint))
  {
    hide Initial, Run, CleanRun, Inv, SettlerInv, SeriesBooks;
    CleanRunKeeps(s, steps);
    PoolsSolvent(Run(s, steps), q, mint);
    LossIsDust(Run(s, steps), mint);
  }

  /** The guard of an early exit: through the settler, before the expiry of the
      series the vault is short of. Direct exits only without a short. */
  ghost predicate EarlyExit(s: System, i: Instruction) {
    match i
    case ToController(EmergencyWithdrawVault(owner, id, _, _, _)) =>
      var k := VaultKey(Wallet(owner), id);
      k in s.vaults ==> s.vaults[k].short == 0
    case ToSettler(EmergencyWithdrawOrder(_, k, _, _, _, _, _, _)) =>
      k in s.vaults && s.vaults[k].otoken in s.series ==> s.now < s.series[s.vaults[k].otoken].expiry
    case _ => true
  }

  /** Early exits are clean: before expiry the ledger still holds the whole
      short, so the smaller of the two amounts burned is the short itself. */
  lemma EarlyExitIsClean(s: System, i: Instruction)
    requires Books(s) && EarlyExit(s, i)
    ensures CleanExit(s, i)
  {
    hide Inv, SettlerInv, BurnAmount;
    BooksBasics(s);
    match i
    case ToSettler(EmergencyWithdrawOrder(_, k, _, _, _, _, _, _)) =>
      if k in s.vaults && k in s.attributions && !s.vaults[k].settled {
        assert !Priced(s.series, s.vaults[k].otoken);
        ExitBurnsShort(s, k);
      }
    case _ =>
  }

  ghost predicate EarlyRun(s: System, steps: seq<Instruction>) {
    steps == [] ||
    var before := steps[..|steps| - 1];
    EarlyRun(s, before) && EarlyExit(Run(s, before), steps[|steps| - 1])
  }

  /** So solvency survives every emergency exit taken early. */
  lemma {:induction false} EarlyRunIsClean(s: System, steps: seq<Instruction>)
    requires Initial(s) && EarlyRun(s, steps)
    ensures CleanRun(s, steps)
  {
    hide Initial, Books, EarlyExit, CleanExit, Step;
    if steps != [] {
      EarlyRunIsClean(s, steps[..|steps| - 1]);
      RunKeeps(s, steps[..|steps| - 1]);
      EarlyExitIsClean(Run(s, steps[..|steps| - 1]), steps[|steps| - 1]);
    }
  }

  /** The direct exit burns nothing. Afterwards the pool covers everything exactly
      when what it had to spare before, with any gift the exit itself makes, was
      worth the vault's whole short. */
  lemma DirectExitSolventIff(s: System, owner: Key, id: nat, pool: Account, to: Account, credited: nat, q: Forecast)
    requires Books(s) && Controller.EmergencyWithdrawVault(s, Wallet(owner), id, pool, to, credited).Ok?
    requires s.vaults[VaultKey(Wallet(owner), id)].otoken in s.series
    ensures var t, v := Controller.EmergencyWithdrawVault(s, Wallet(owner), id, pool, to, credited).value, s.vaults[VaultKey(Wallet(owner), id)];
            && t.log.Then?
            && (ExactlySolvent(t, q, v.collateralMint)
                <==> Slack(s, q, v.collateralMint) + Amount(t.log.event, GiftsTo(PoolPurse(v.collateralMint)))
                     >= DueAt(s, q, v.otoken, v.short))
  {
    hide Inv, SettlerInv, Controller.EmergencyWithdrawVault, DueAt, ExactlySolvent, Slack;
    var k := VaultKey(Wallet(owner), id);
    var t := Controller.EmergencyWithdrawVault(s, Wallet(owner), id, pool, to, credited).value;
    EmergencyMoves(s, Wallet(owner), id, pool, to, credited);
    EmergencyKeeps(s, Wallet(owner), id, pool, to, credited);
    ExitSlack(s, t, k, t.log.event, 0, q);
    ExactlySolventIff(t, q, s.vaults[k].collateralMint);
  }

  /** The settler's exit burns what the ledger still holds; afterwards the same,
      less what that takes off the outstanding oTokens. */
  lemma SettlerExitSolventIff(s: System, signer: Key, k: VaultKey, maker: Key, otoken: Key, settlerOtoken: Account,
                              pool: Account, to: Account, credited: nat, q: Forecast)
    requires Books(s) && EmergencyWithdraw(s, signer, k, maker, otoken, settlerOtoken, pool, to, credited).Ok?
    requires s.vaults[k].otoken in s.series
    ensures var t, v := EmergencyWithdraw(s, signer, k, maker, otoken, settlerOtoken, pool, to, credited).value, s.vaults[k];
            && t.log.Then? && BurnAmount(s, k) <= s.Supply(v.otoken)
            && (ExactlySolvent(t, q, v.collateralMint)
                <==> Slack(s, q, v.collateralMint) + Amount(t.log.event, GiftsTo(PoolPurse(v.collateralMint)))
                     + DueAt(s, q, v.otoken, s.Supply(v.otoken))
                     >= DueAt(s, q, v.otoken, v.short) + DueAt(s, q, v.otoken, s.Supply(v.otoken) - BurnAmount(s, k)))
  {
    hide Inv, SettlerInv, EmergencyWithdraw, DueAt, ExactlySolvent, Slack, BurnAmount;
    var t := EmergencyWithdraw(s, signer, k, maker, otoken, settlerOtoken, pool, to, credited).value;
    SettlerAttributions(s);
    EmergencyWithdrawEffect(s, signer, k, maker, otoken, settlerOtoken, pool, to, credited);
    BurnWithinShort(s, k);
    ExitRescues(s, signer, k, maker, otoken, settlerOtoken, pool, to, credited);
    ExitPools(s, signer, k, maker, otoken, settlerOtoken, pool, to, credited);
    ExitSlack(s, t, k, t.log.event, BurnAmount(s, k), q);
    ExactlySolventIff(t, q, s.vaults[k].collateralMint);
  }

  lemma BurnWithinShort(s: System, k: VaultKey)
    requires AttributionsOk(s) && k in s.attributions
    ensures k in s.vaults && BurnAmount(s, k) <= s.vaults[k].short && s.attributions[k].otoken == s.vaults[k].otoken
  {
    assert Attributed(s.vaults[k], s.attributions[k], s.series, TrailOf(s.log, k));
  }

  /** An emergency withdrawal through the settler, as the beneficiary of an
      attributed vault would submit it: out of one custody account and one
      account of the pool. */
  function ExitOf(s: System, k: VaultKey, custody: nat, pool: nat, to: nat, credited: nat): Result<System> {
    var known := k in s.vaults && k in s.attributions && s.vaults[k].beneficiary.Wallet?;
    :- Need(known, AccountMissing);
    var v, mm := s.vaults[k], s.attributions[k];
    EmergencyWithdraw(s, v.beneficiary.key, k, mm.maker, mm.otoken, CustodyAccount(mm.otoken, custody),
                      PoolAccount(v.collateralMint, pool), Account(v.beneficiary, v.collateralMint, to), credited)
  }

  /** The burn an exit needs is always there, in the settler's accounts together
      and in the supply. */
  lemma ExitBurns(s: System, k: VaultKey)
    requires SettlerInv(s) && Lawful(s) && k in s.attributions
    ensures var otoken := s.attributions[k].otoken;
            && CustodyKey(s.attributions[k].maker, otoken) in s.custody
            && BurnAmount(s, k) <= s.Balance(CustodyPurse(otoken)) <= s.Supply(otoken)
  {
    hide Lawful, DriftOk, QuoteOk, FillsWritten, TrailOf;
    var mm := s.attributions[k];
    assert Backed(s, mm.otoken);
    CustodyWithin(s, CustodyKey(mm.maker, mm.otoken));
    HeldWithinSupply(s, CustodyPurse(mm.otoken));
  }

  /** The money an exit takes out of the accounts passed is in them. */
  ghost predicate ExitCovered(s: System, k: VaultKey, custody: nat, pool: nat, credited: nat)
    requires k in s.vaults && k in s.attributions
  {
    var v := s.vaults[k];
    && BurnAmount(s, k) <= s.Funds(CustodyAccount(s.attributions[k].otoken, custody))
    && (v.collateral == 0 || credited <= v.collateral <= s.Funds(PoolAccount(v.collateralMint, pool)))
  }

  lemma ExitReleases(s: System, k: VaultKey, custody: nat, pool: nat, to: nat, credited: nat)
    requires Lawful(s) && k in s.vaults && k in s.attributions && s.vaults[k].beneficiary.Wallet? && k.owner == SettlerPda
    requires CustodyKey(s.attributions[k].maker, s.attributions[k].otoken) in s.custody
    requires s.attributions[k].otoken != s.vaults[k].collateralMint
    ensures ExitOf(s, k, custody, pool, to, credited).Ok?
       <==> !s.vaults[k].settled && s.config.fullyPaused && ExitCovered(s, k, custody, pool, credited)
  {
    hide Burn, Lawful;
    var mm := s.attributions[k];
    var a := CustodyAccount(mm.otoken, custody);
    HeldWithinSupply(s, CustodyPurse(mm.otoken));
    HeldWithinSupply(s, PoolPurse(s.vaults[k].collateralMint));
    if 0 < BurnAmount(s, k) <= s.Funds(a) {
      BurnGoes(s, SettlerPda, a, BurnAmount(s, k));
      BurnMoves(s, SettlerPda, a, BurnAmount(s, k));
      BurnFunds(s, SettlerPda, a, BurnAmount(s, k));
    } else if BurnAmount(s, k) > 0 {
      BurnRefused(s, SettlerPda, a, BurnAmount(s, k));
    }
  }

  lemma BurnRefused(s: System, authority: Holder, from: Account, amount: nat)
    requires amount > s.Funds(from)
    ensures Burn(s, authority, from, amount).Err?
  {
  }

  /** Exactly when a settler exit goes through, in every reachable state: the
      controller is fully paused, the vault is the settler's and unsettled, and
      the custody account and the pool account passed hold what is burned and what
      is released. The settler's accounts together always hold the burn. */
  lemma SettlerExitIff(s: System, steps: seq<Instruction>, k: VaultKey, custody: nat, pool: nat, to: nat, credited: nat)
    requires Initial(s) && k.owner == SettlerPda
    ensures var t := Run(s, steps);
            && (k in t.vaults ==> k in t.attributions && BurnAmount(t, k) <= t.Balance(CustodyPurse(t.attributions[k].otoken)))
            && (ExitOf(t, k, custody, pool, to, credited).Ok?
                <==> k in t.vaults && !t.vaults[k].settled && t.config.fullyPaused && ExitCovered(t, k, custody, pool, credited))
  {
    hide Initial, Run, Inv, Lawful, QuoteOk, FillsWritten, DriftOk, Backed, TrailOf, ExitOf, BurnAmount, ExitCovered;
    var t := Run(s, steps);
    RunKeeps(s, steps);
    RunLawful(s, steps);
    if k in t.vaults {
      assert Attributed(t.vaults[k], t.attributions[k], t.series, TrailOf(t.log, k));
      ExitBurns(t, k);
      InvVault(t, k);
      InvSeriesOk(t, t.vaults[k].otoken);
      ExitReleases(t, k, custody, pool, to, credited);
    } else {
      assert ExitOf(t, k, custody, pool, to, credited).Err? by { NoVaultNoExit(t, k, custody, pool, to, credited); }
    }
  }

  lemma NoVaultNoExit(s: System, k: VaultKey, custody: nat, pool: nat, to: nat, credited: nat)
    requires k !in s.vaults
    ensures ExitOf(s, k, custody, pool, to, credited).Err?
  {
  }

  /** At the end of a series, over runs. */
  lemma RunWindsDown(s: System, steps: seq<Instruction>, otoken: Key)
    requires Initial(s) && CleanRun(s, steps)
    requires otoken in Run(s, steps).series && WoundDown(Run(s, steps), otoken)
    ensures var t := Run(s, steps);
            var net := MapSum(RetainedMap(t, otoken)) - Total(t.log, PaidFor(otoken));
            && -Spare(Writers(t, otoken)) <= net <= Spare(Total(t.log, RedemptionsOf(otoken)))
            && (t.series[otoken].Exact() ==> net == 0)
  {
    hide Initial, Run, CleanRun, Inv, SettlerInv, SeriesBooks, WoundDown, RetainedMap, Writers;
    CleanRunKeeps(s, steps);
    WindDownIsEven(Run(s, steps), otoken);
  }

  // ---------------------------------------------------------------- conservation

  /** Collateral deposited into, and released from, the vaults on one mint. */
  ghost function DepositMap(s: System, mint: Key): map<VaultKey, int> {
    map k | k in s.vaults :: if s.vaults[k].collateralMint == mint then Total(s.log, DepositedInto(k)) else 0
  }

  ghost function ReleaseMap(s: System, mint: Key): map<VaultKey, int> {
    map k | k in s.vaults :: if s.vaults[k].collateralMint == mint then Total(s.log, ReleasedFrom(k)) else 0
  }

  /** Pool conservation, whatever the mints withhold and whatever exits are
      taken: deposits and gifts are the balance, the releases and the payouts.
      No vault releases more than once, or more than was deposited. */
  lemma PoolConserves(s: System, steps: seq<Instruction>, mint: Key)
    requires Initial(s)
    ensures var t := Run(s, steps);
            t.Balance(PoolPurse(mint)) + MapSum(ReleaseMap(t, mint)) + MapSum(PaidMap(t, mint))
            == MapSum(DepositMap(t, mint)) + Total(t.log, GiftsTo(PoolPurse(mint)))
    ensures forall k :: Total(Run(s, steps).log, ReleasesOf(k)) <= 1
    ensures forall k :: Total(Run(s, steps).log, ReleasedFrom(k)) <= Total(Run(s, steps).log, DepositedInto(k))
  {
    hide Initial, Run, SettlerInv;
    RunKeeps(s, steps);
    var t := Run(s, steps);
    HeldIsDeposits(t, mint);
    assert Balanced(t, mint);
    forall k ensures Total(t.log, ReleasesOf(k)) <= 1
             ensures Total(t.log, ReleasedFrom(k)) <= Total(t.log, DepositedInto(k))
    {
      FlowsBounded(t, k);
    }
  }

  lemma HeldIsDeposits(t: System, mint: Key)
    requires VaultsOk(t)
    ensures MapSum(DepositMap(t, mint)) == MapSum(HeldMap(t, mint)) + MapSum(ReleaseMap(t, mint))
  {
    forall k | k in t.vaults ensures DepositMap(t, mint)[k] == HeldMap(t, mint)[k] + ReleaseMap(t, mint)[k] {
      assert Sound(t.vaults[k], t.series, FlowsOf(t.log, k));
    }
    SumAdd(HeldMap(t, mint), ReleaseMap(t, mint), DepositMap(t, mint));
  }

  lemma FlowsBounded(t: System, k: VaultKey)
    requires VaultsOk(t)
    ensures Total(t.log, ReleasesOf(k)) <= 1
    ensures Total(t.log, ReleasedFrom(k)) <= Total(t.log, DepositedInto(k))
  {
    if k in t.vaults {
      assert Sound(t.vaults[k], t.series, FlowsOf(t.log, k));
    } else {
      assert FlowsOf(t.log, k) == Flows(0, 0, 0, 0);
    }
  }

  // ---------------------------------------------------------------- vaults

  /** Vault safety: at any positive price an unsettled vault with a short can be
      settled without arithmetic failure, and owes its beneficiary everything out
      of the money, the collateral above the requirement in the money. */
  lemma VaultsStayCovered(s: System, steps: seq<Instruction>, k: VaultKey, price: u64)
    requires Initial(s) && k in Run(s, steps).vaults && Run(s, steps).vaults[k].short > 0
    ensures var t := Run(s, steps);
            var v := t.vaults[k];
            && v.otoken in t.series
            && var o := t.series[v.otoken].(price := price);
            && o.Payout(v.short).Ok? && o.Required(v.short).Ok? && o.Payout(v.short).value <= v.collateral
            && v.collateral - o.Payout(v.short).value
               == if InTheMoney(o.strike, price, o.isPut) then v.collateral - o.Required(v.short).value else v.collateral
  {
    hide Initial, Run, SettlerInv, Payoff.Worth;
    RunKeeps(s, steps);
    var t := Run(s, steps);
    var v := t.vaults[k];
    InvVault(t, k);
    PayoutAlwaysCovered(v, t.series, price);
    RequirementIsExact(t.series[v.otoken], v.short);
  }

  /** The vault ids of an owner are exactly 0 up to its counter. */
  lemma IdsAreDense(s: System, steps: seq<Instruction>, k: VaultKey)
    requires Initial(s)
    ensures var t := Run(s, steps);
            k in t.vaults <==> k.owner in t.counters && k.id < t.counters[k.owner]
  {
    hide Initial, Run, SettlerInv;
    RunKeeps(s, steps);
  }

  // ---------------------------------------------------------------- prices

  /** One price for each underlying and expiry: series that share both and have a
      price have the same one, and keep it over any continuation. */
  lemma OnePrice(s: System, steps: seq<Instruction>, more: seq<Instruction>, a: Key, b: Key)
    requires Initial(s)
    requires var t := Run(s, steps);
             && a in t.series && b in t.series
             && t.series[a].underlying == t.series[b].underlying && t.series[a].expiry == t.series[b].expiry
             && t.series[a].price > 0
    ensures var t, u := Run(s, steps), Run(Run(s, steps), more);
            && a in u.series && b in u.series
            && u.series[a].price == t.series[a].price
            && u.series[b].price in {0, t.series[a].price}
  {
    hide Initial, Run, Inv, SettlerInv, VaultsGrow, ExpiredClosed, QuotesAdvance;
    RunKeeps(s, steps);
    var t := Run(s, steps);
    RunProgress(t, more);
    BooksBasics(t);
    BooksBasics(Run(t, more));
    assert SeriesOk(Run(t, more), a) && SeriesOk(Run(t, more), b);
  }

  /** Nothing of a series is minted once any of it has been settled or redeemed. */
  lemma NoMintAfterSettlement(s: System, steps: seq<Instruction>, more: seq<Instruction>, otoken: Key)
    requires Initial(s)
    requires var t := Run(s, steps);
             || Total(t.log, RedemptionsOf(otoken)) > 0
             || exists k :: k in t.vaults && t.vaults[k].otoken == otoken && otoken != 0 && t.vaults[k].settled && !Rescued(t, k)
    ensures Total(Run(Run(s, steps), more).log, MintedOf(otoken)) == Total(Run(s, steps).log, MintedOf(otoken))
  {
    hide Initial, Run, SettlerInv, VaultsGrow, TermsKept, QuotesAdvance;
    RunKeeps(s, steps);
    var t := Run(s, steps);
    SettledIsPriced(t, otoken);
    RunProgress(t, more);
  }

  lemma SettledIsPriced(t: System, otoken: Key)
    requires Inv(t)
    requires || Total(t.log, RedemptionsOf(otoken)) > 0
             || exists k :: k in t.vaults && t.vaults[k].otoken == otoken && otoken != 0 && t.vaults[k].settled && !Rescued(t, k)
    ensures otoken in t.series && t.series[otoken].price > 0 && t.now >= t.series[otoken].expiry
  {
    if Total(t.log, RedemptionsOf(otoken)) > 0 {
      assert PaymentsOf(t.log, otoken) != Payments(0, 0, 0);
    } else {
      var k :| k in t.vaults && t.vaults[k].otoken == otoken && otoken != 0 && t.vaults[k].settled && !Rescued(t, k);
      assert Sound(t.vaults[k], t.series, FlowsOf(t.log, k));
    }
    assert SeriesOk(t, otoken);
  }

  /** Of a put and a call on one underlying at one strike and expiry, each with its
      own copy of the price, one always pays nothing, whatever the amounts, and
      never can both be delivered. */
  lemma NeverBothPay(s: System, steps: seq<Instruction>, put: Key, call: Key, x: u64, y: u64)
    requires Initial(s) && put in Run(s, steps).series && call in Run(s, steps).series
    requires var p, c := Run(s, steps).series[put], Run(s, steps).series[call];
             && p.isPut && !c.isPut && p.price > 0 && c.price > 0
             && p.underlying == c.underlying && p.expiry == c.expiry && p.strike == c.strike
    ensures var t := Run(s, steps);
            && (t.series[put].Payout(x) == Ok(0) || t.series[call].Payout(y) == Ok(0))
            && (ValidateItm(t.series[put], t.now).Fail? || ValidateItm(t.series[call], t.now).Fail?)
  {
    hide Initial, Run, Inv, SettlerInv, GetRequiredCollateral;
    RunKeeps(s, steps);
    BooksBasics(Run(s, steps));
    assert SeriesOk(Run(s, steps), put) && SeriesOk(Run(s, steps), call);
  }

  /** The settler's check decides what the controller pays: on a priced series it
      passes only where any amount redeems for its whole required collateral, and
      fails only where every amount redeems for nothing. */
  lemma DeliverableIsPaid(s: System, steps: seq<Instruction>, otoken: Key, amount: u64)
    requires Initial(s) && otoken in Run(s, steps).series && Run(s, steps).series[otoken].price > 0
    ensures var t := Run(s, steps);
            var o := t.series[otoken];
            o.Payout(amount) == if ValidateItm(o, t.now).Pass? then o.Required(amount) else Ok(0)
  {
    hide Initial, Run, Inv, SettlerInv, GetRequiredCollateral;
    RunKeeps(s, steps);
    BooksBasics(Run(s, steps));
    assert SeriesOk(Run(s, steps), otoken);
  }

  // ---------------------------------------------------------------- quotes

  /** What was executed under a quote is what its record says, and never more
      than the largest limit it was executed with. */
  lemma FillsWithinLimits(s: System, steps: seq<Instruction>, q: QuoteKey)
    requires Initial(s)
    ensures var t := Run(s, steps);
            FillOf(t, q).filled == Total(t.log, FilledUnder(q)) <= Limit(t.log, q)
  {
    hide Initial, Run, Inv, AttributionsOk, DriftOk, Backed, FillsWritten;
    RunKeeps(s, steps);
    assert QuoteOk(Run(s, steps), q);
  }

  /** Once cancelled, or signed under a nonce the maker has left behind, a quote is
      never filled again. */
  lemma FrozenForever(s: System, steps: seq<Instruction>, more: seq<Instruction>, q: QuoteKey)
    requires Initial(s) && Frozen(Run(s, steps), q)
    ensures var t, u := Run(s, steps), Run(Run(s, steps), more);
            Frozen(u, q) && FillOf(u, q) == FillOf(t, q) && Total(u.log, FilledUnder(q)) == Total(t.log, FilledUnder(q))
  {
    hide Initial, Run, Inv, AttributionsOk, DriftOk, Backed, FillsWritten, VaultsGrow, TermsKept, ExpiredClosed;
    RunKeeps(s, steps);
    var t := Run(s, steps);
    RunProgress(t, more);
    assert QuoteOk(t, q) && QuoteOk(Run(t, more), q);
  }

  // ---------------------------------------------------------------- ledgers

  /** The maker's custody entry is at most its undelivered oTokens, each vault's
      at most the vault's short; the first two agree until the maker redeems for
      cash, and never differ by more than it redeemed. */
  lemma DriftIsOneSided(s: System, steps: seq<Instruction>, c: CustodyKey)
    requires Initial(s)
    ensures var t := Run(s, steps);
            && CustodyOf(t, c) <= MapSum(RemainingMap(t, c)) <= CustodyOf(t, c) + Total(t.log, RedeemedBy(c))
            && (Total(t.log, RedeemedBy(c)) == 0 ==> CustodyOf(t, c) == MapSum(RemainingMap(t, c)))
            && forall k | k in t.attributions :: k in t.vaults && t.attributions[k].remaining <= t.vaults[k].short
  {
    hide Initial, Run, Inv, QuoteOk, Backed, FillsWritten, TrailOf;
    RunKeeps(s, steps);
    assert DriftOk(Run(s, steps), c);
  }

  /** The settler's own oTokens are the makers' custody plus what others sent, so
      any amount the ledger lets a maker spend is there. */
  lemma CustodyIsBacked(s: System, steps: seq<Instruction>, c: CustodyKey)
    requires Initial(s)
    ensures var t := Run(s, steps);
            && t.Balance(CustodyPurse(c.otoken)) == MapSum(CustodyMap(t, c.otoken)) + Total(t.log, GiftsTo(CustodyPurse(c.otoken)))
            && CustodyOf(t, c) <= t.Balance(CustodyPurse(c.otoken))
  {
    hide Initial, Run, Inv, QuoteOk, AttributionsOk, FillsWritten, DriftOk;
    RunKeeps(s, steps);
    var t := Run(s, steps);
    assert Backed(t, c.otoken);
    CustodyWithin(t, c);
  }

  lemma CustodyWithin(t: System, c: CustodyKey)
    ensures CustodyOf(t, c) <= MapSum(CustodyMap(t, c.otoken))
  {
    if c in t.custody {
      SumAtLeast(CustodyMap(t, c.otoken), c);
    } else {
      NonNegSum(CustodyMap(t, c.otoken));
    }
  }

  /** Everything filled was written: for each maker, fills over all its quotes add
      up to the shorts of the vaults attributed to it, each of which is a settler
      vault that saw exactly one deposit and one mint. */
  lemma FillsAreWritten(s: System, steps: seq<Instruction>, maker: Key)
    requires Initial(s)
    ensures var t := Run(s, steps);
            && MapSum(FilledMap(t, maker)) == MapSum(WrittenMap(t, maker))
            && (forall k: VaultKey :: k in t.attributions <==> k in t.vaults && k.owner == SettlerPda)
            && (forall k | k in t.attributions :: Total(t.log, DepositsOf(k)) == 1 && Total(t.log, MintsOf(k)) == 1)
  {
    hide Initial, Run, Inv, QuoteOk, Backed, DriftOk;
    RunKeeps(s, steps);
    var t := Run(s, steps);
    assert FillsWritten(t, maker);
    forall k | k in t.attributions ensures Total(t.log, DepositsOf(k)) == 1 && Total(t.log, MintsOf(k)) == 1 {
      assert Attributed(t.vaults[k], t.attributions[k], t.series, TrailOf(t.log, k));
    }
  }

  /** Whatever the owner does with the fee, it stays within a fifth of the premium
      and the maker pays exactly fee and net. */
  lemma FeeStaysCapped(s: System, steps: seq<Instruction>, amount: u64, bidPrice: u64)
    requires Initial(s)
    ensures var split := ComputePremiumSplit(amount, bidPrice, Run(s, steps).settler.feeBps);
            split.Ok? ==> split.value.fee + split.value.net == split.value.premium && 5 * split.value.fee <= split.value.premium
  {
    hide Initial, Run, Books, ComputePremiumSplit;
    RunKeeps(s, steps);
    BooksBasics(Run(s, steps));
    SplitIsExact(amount, bidPrice, Run(s, steps).settler.feeBps);
  }

  /** The deviation check is on in every reachable state. */
  lemma DeviationAlwaysChecked(s: System, steps: seq<Instruction>)
    requires Initial(s)
    ensures Run(s, steps).oracle.thresholdBps > 0
  {
    hide Run, Books, VaultsGrow, ExpiredClosed, QuotesAdvance;
    InitialBooks(s);
    RunProgress(s, steps);
  }

  /** The escape hatch never opens before the owner's configured delay after
      expiry has passed, and that delay is never under three days. */
  lemma EscapeAfterDelay(s: System, steps: seq<Instruction>, maker: Key, otoken: Key, a: RedeemAccounts, amount: u64, credited: nat)
    requires Initial(s)
    ensures var t := Run(s, steps);
            Settler.MMSelfRedeem(t, maker, otoken, a, amount, credited).Ok?
            ==> otoken in t.series && t.now >= t.series[otoken].expiry + t.settler.escapeDelay && t.settler.escapeDelay >= 259_200
  {
    hide Initial, Run, Books, RedeemAndForward;
    RunKeeps(s, steps);
    BooksBasics(Run(s, steps));
  }
}
