/** What never goes back: terms and prices of series, vault records, nonces and
    frozen quotes, from any reachable state to any later one. */
module Progress {
  import opened Wrappers
  import opened Ints
  import opened Payoff
  import opened Model
  import opened Tokens
  import opened Settler
  import opened SettlerBooks
  import opened OrderSteps
  import opened CustodySteps
  import opened DeliverySteps
  import opened PoolBooks
  import opened SettlerPools
  import opened Machine
  import opened Invariants
  import Controller
  import Oracle

  /** Time moves on; oracle prices, the terms of a series and its price, once
      set, stay. */
  ghost predicate TermsKept(s: System, t: System) {
    && s.now <= t.now
    && (s.oracle.thresholdBps > 0 ==> t.oracle.thresholdBps > 0)
    && (forall p | p in s.prices :: p in t.prices && t.prices[p] == s.prices[p])
    && (forall o | o in s.series ::
          && o in t.series && t.series[o] == s.series[o].(price := t.series[o].price)
          && (s.series[o].price > 0 ==> t.series[o].price == s.series[o].price))
  }

  /** Vaults keep their asset and beneficiary; they only gain collateral and
      shorts in one series; a settled vault never changes again. */
  ghost predicate VaultsGrow(s: System, t: System) {
    forall k | k in s.vaults ::
      && k in t.vaults
      && var v, w := s.vaults[k], t.vaults[k];
      && w.collateralMint == v.collateralMint && w.beneficiary == v.beneficiary
      && v.collateral <= w.collateral && v.short <= w.short
      && (v.otoken != 0 ==> w.otoken == v.otoken)
      && (v.settled ==> w == v)
  }

  /** No more oTokens of an expired series, whatever happens. */
  ghost predicate ExpiredClosed(s: System, t: System) {
    forall o | o in s.series && s.now >= s.series[o].expiry :: Total(t.log, MintedOf(o)) == Total(s.log, MintedOf(o))
  }

  /** A quote that can no longer be filled: cancelled, or signed under a nonce
      the maker has moved past. */
  ghost predicate Frozen(s: System, q: QuoteKey) {
    FillOf(s, q).cancelled || (q.maker in s.makers && q.nonce < s.makers[q.maker].nonce)
  }

  ghost predicate QuotesAdvance(s: System, t: System) {
    && (forall m | m in s.makers :: m in t.makers && s.makers[m].nonce <= t.makers[m].nonce)
    && (forall q | q in s.fills :: q in t.fills && s.fills[q].filled <= t.fills[q].filled)
    && (forall q | Frozen(s, q) :: FillOf(t, q) == FillOf(s, q))
  }

  ghost predicate Progressed(s: System, t: System) {
    TermsKept(s, t) && VaultsGrow(s, t) && ExpiredClosed(s, t) && QuotesAdvance(s, t)
  }

  lemma ProgressTrans(r: System, s: System, t: System)
    requires Progressed(r, s) && Progressed(s, t)
    ensures Progressed(r, t)
  {
    assert ExpiredClosed(r, t) by {
      hide VaultsGrow, QuotesAdvance, Total;
    }
    assert VaultsGrow(r, t) by {
      hide ExpiredClosed, QuotesAdvance, TermsKept, Total;
    }
    assert TermsKept(r, t) by {
      hide ExpiredClosed, QuotesAdvance, VaultsGrow, Total;
    }
    assert QuotesAdvance(r, t) by {
      hide ExpiredClosed, VaultsGrow, TermsKept, Total;
    }
  }

  // ---------------------------------------------------------------- shapes

  ghost predicate Grown(v: Vault, w: Vault) {
    && w.collateralMint == v.collateralMint && w.beneficiary == v.beneficiary
    && v.collateral <= w.collateral && v.short <= w.short
    && (v.otoken != 0 ==> w.otoken == v.otoken)
    && !v.settled
  }

  /** A step on one vault, new or unsettled. */
  lemma VaultProgress(s: System, t: System, k: VaultKey, e: Event)
    requires t == s.(balances := t.balances, supply := t.supply, counters := t.counters, vaults := t.vaults,
                     custody := t.custody, attributions := t.attributions, log := Then(s.log, e))
    requires k in t.vaults && t.vaults == s.vaults[k := t.vaults[k]]
    requires k in s.vaults ==> Grown(s.vaults[k], t.vaults[k])
    requires e.OTokenMinted? && e.otoken in s.series ==> s.now < s.series[e.otoken].expiry
    ensures Progressed(s, t)
  {
    assert ExpiredClosed(s, t);
  }

  /** A step on no vault that mints nothing. */
  lemma RecordProgress(s: System, t: System)
    requires TermsKept(s, t) && QuotesAdvance(s, t) && t.vaults == s.vaults
    requires forall o :: Total(t.log, MintedOf(o)) == Total(s.log, MintedOf(o))
    ensures Progressed(s, t)
  {
  }

  lemma SameQuotes(s: System, t: System)
    requires t.fills == s.fills && t.makers == s.makers
    ensures QuotesAdvance(s, t)
  {
  }

  lemma SameTerms(s: System, t: System)
    requires t.series == s.series && t.prices == s.prices && t.oracle == s.oracle && s.now <= t.now
    ensures TermsKept(s, t)
  {
  }

  // ---------------------------------------------------------------- controller

  lemma OpenProgress(s: System, owner: Holder, mint: Key, beneficiary: Holder)
    requires Controller.OpenVault(s, owner, mint, beneficiary).Ok?
    ensures Progressed(s, Controller.OpenVault(s, owner, mint, beneficiary).value)
  {
    hide Progressed;
    var t := Controller.OpenVault(s, owner, mint, beneficiary).value;
    VaultProgress(s, t, VaultKey(owner, s.counters[owner]), t.log.event);
  }

  lemma DepositProgress(s: System, owner: Holder, id: nat, from: Account, pool: Account, amount: u64, credited: nat)
    requires Controller.Deposit(s, owner, id, from, pool, amount, credited).Ok?
    ensures Progressed(s, Controller.Deposit(s, owner, id, from, pool, amount, credited).value)
  {
    hide Progressed;
    var t := Controller.Deposit(s, owner, id, from, pool, amount, credited).value;
    VaultProgress(s, t, VaultKey(owner, id), t.log.event);
  }

  lemma MintProgress(s: System, owner: Holder, id: nat, otoken: Key, to: Account, amount: u64)
    requires Controller.Mint(s, owner, id, otoken, to, amount).Ok?
    ensures Progressed(s, Controller.Mint(s, owner, id, otoken, to, amount).value)
  {
    hide Progressed, Controller.Mint;
    MintMoves(s, owner, id, otoken, to, amount);
    var t := Controller.Mint(s, owner, id, otoken, to, amount).value;
    VaultProgress(s, t, VaultKey(owner, id), t.log.event);
  }

  lemma SettleProgress(s: System, signer: Key, k: VaultKey, pool: Account, to: Account, credited: nat)
    requires Controller.Settle(s, signer, k.owner, k.id, pool, to, credited).Ok?
    ensures Progressed(s, Controller.Settle(s, signer, k.owner, k.id, pool, to, credited).value)
  {
    hide Progressed, Controller.Settle;
    SettleMoves(s, signer, k.owner, k.id, pool, to, credited);
    var t := Controller.Settle(s, signer, k.owner, k.id, pool, to, credited).value;
    VaultProgress(s, t, k, t.log.event);
  }

  lemma RedeemProgress(s: System, redeemer: Holder, otoken: Key, from: Account, to: Account, pool: Account, amount: u64, credited: nat)
    requires Controller.Redeem(s, redeemer, otoken, from, to, pool, amount, credited).Ok?
    ensures Progressed(s, Controller.Redeem(s, redeemer, otoken, from, to, pool, amount, credited).value)
  {
    hide Progressed, Controller.Redeem;
    RedeemMoves(s, redeemer, otoken, from, to, pool, amount, credited);
    var t := Controller.Redeem(s, redeemer, otoken, from, to, pool, amount, credited).value;
    SameTerms(s, t);
    SameQuotes(s, t);
    RecordProgress(s, t);
  }

  lemma WithdrawProgress(s: System, owner: Holder, id: nat, pool: Account, to: Account, credited: nat)
    requires Controller.EmergencyWithdrawVault(s, owner, id, pool, to, credited).Ok?
    ensures Progressed(s, Controller.EmergencyWithdrawVault(s, owner, id, pool, to, credited).value)
  {
    hide Progressed, Controller.EmergencyWithdrawVault;
    EmergencyMoves(s, owner, id, pool, to, credited);
    var t := Controller.EmergencyWithdrawVault(s, owner, id, pool, to, credited).value;
    VaultProgress(s, t, VaultKey(owner, id), t.log.event);
  }

  lemma SeriesProgress(s: System, t: System, otoken: Key)
    requires SeriesAdvance(s, t, otoken)
    ensures Progressed(s, t)
  {
    hide Progressed;
    assert TermsKept(s, t);
    SameQuotes(s, t);
    RecordProgress(s, t);
  }

  lemma CreateProgress(s: System, signer: Key, isOperator: bool, otoken: Key, o: Series)
    requires Controller.CreateSeries(s, signer, isOperator, otoken, o).Ok?
    ensures Progressed(s, Controller.CreateSeries(s, signer, isOperator, otoken, o).value)
  {
    hide Progressed;
    SeriesProgress(s, Controller.CreateSeries(s, signer, isOperator, otoken, o).value, otoken);
  }

  lemma PriceProgress(s: System, signer: Key, otoken: Key)
    requires Controller.SetExpiryPrice(s, signer, otoken).Ok?
    ensures Progressed(s, Controller.SetExpiryPrice(s, signer, otoken).value)
  {
    hide Progressed;
    SeriesProgress(s, Controller.SetExpiryPrice(s, signer, otoken).value, otoken);
  }

  lemma PaperProgress(s: System, t: System)
    requires PaperTrail(s, t) && (s.oracle.thresholdBps > 0 ==> t.oracle.thresholdBps > 0)
    ensures Progressed(s, t)
  {
    hide Progressed;
    assert TermsKept(s, t);
    SameQuotes(s, t);
    RecordProgress(s, t);
  }

  lemma ControllerProgress(s: System, i: ControllerIx)
    requires Books(s) && ApplyController(s, i).Ok?
    ensures Progressed(s, ApplyController(s, i).value)
  {
    hide Progressed, Controller.OpenVault, Controller.Deposit, Controller.Mint, Controller.Settle, Controller.Redeem,
         Controller.EmergencyWithdrawVault, Controller.CreateSeries, Controller.SetExpiryPrice, Books;
    match i
    case OpenVault(owner, mint, beneficiary) => OpenProgress(s, Wallet(owner), mint, beneficiary);
    case DepositCollateral(owner, id, from, pool, amount, credited) =>
      DepositProgress(s, Wallet(owner), id, from, pool, amount, credited);
    case MintOtoken(owner, id, otoken, to, amount) => MintProgress(s, Wallet(owner), id, otoken, to, amount);
    case SettleVault(signer, k, pool, to, credited) => SettleProgress(s, signer, k, pool, to, credited);
    case Redeem(redeemer, otoken, from, to, pool, amount, credited) =>
      RedeemProgress(s, Wallet(redeemer), otoken, from, to, pool, amount, credited);
    case EmergencyWithdrawVault(owner, id, pool, to, credited) => WithdrawProgress(s, Wallet(owner), id, pool, to, credited);
    case CreateOTokenInfo(signer, isOperator, otoken, info) => CreateProgress(s, signer, isOperator, otoken, info);
    case SetSeriesPrice(signer, otoken) => PriceProgress(s, signer, otoken);
    case _ => ControllerPaper(s, i);
  }

  lemma ControllerPaper(s: System, i: ControllerIx)
    requires Books(s) && ApplyController(s, i).Ok? && ControllerPaperwork(i)
    ensures Progressed(s, ApplyController(s, i).value)
  {
    hide Progressed, Books, ApplyController, PaperTrail;
    BooksBasics(s);
    ControllerPaperTrail(s, i);
    PaperProgress(s, ApplyController(s, i).value);
  }

  lemma OracleProgress(s: System, i: OracleIx)
    requires Books(s) && ApplyOracle(s, i).Ok?
    ensures Progressed(s, ApplyOracle(s, i).value)
  {
    hide Progressed, Books, ApplyOracle, PaperTrail;
    BooksBasics(s);
    OracleTrail(s, i);
    PaperProgress(s, ApplyOracle(s, i).value);
  }

  // ---------------------------------------------------------------- settler

  lemma QuoteProgress(s: System, i: SettlerIx)
    requires ApplySettler(s, i).Ok? && (i.WhitelistMaker? || i.IncrementMakerNonce? || i.CancelQuote?)
    ensures Progressed(s, ApplySettler(s, i).value)
  {
    hide Progressed, Settler.ExecuteOrder, Settler.SettleVault, Settler.EmergencyWithdraw, Settler.RedeemForMM, Settler.MMSelfRedeem,
         Settler.PhysicalRedeem;
    var t := ApplySettler(s, i).value;
    SameTerms(s, t);
    assert QuotesAdvance(s, t);
    RecordProgress(s, t);
  }

  lemma OrderProgress(s: System, a: Order)
    requires Settler.ExecuteOrder(s, a).Ok?
    ensures Progressed(s, Settler.ExecuteOrder(s, a).value)
  {
    hide Settler.ExecuteOrder, ComputePremiumSplit, Executed, Progressed, Paid;
    ExecuteOrderEffect(s, a);
    ExecutedProgress(s, Settler.ExecuteOrder(s, a).value, a, ComputePremiumSplit(a.amount, a.bidPrice, s.settler.feeBps).value.fee);
  }

  lemma ExecutedCloses(s: System, t: System, a: Order, fee: nat)
    requires Executed(s, t, a, fee)
    ensures ExpiredClosed(s, t)
  {
    hide OrderLog, Total;
    forall o ensures Total(t.log, MintedOf(o)) == Total(s.log, MintedOf(o)) + (if o == a.otoken then a.amount else 0) {
      OrderTotal(s.log, OrderVault(s), a, fee, MintedOf(o));
    }
  }

  lemma ExecutedProgress(s: System, t: System, a: Order, fee: nat)
    requires Executed(s, t, a, fee)
    ensures Progressed(s, t)
  {
    hide OrderLog, Total, ExpiredClosed;
    ExecutedCloses(s, t, a, fee);
  }

  lemma CashProgress(s: System, t: System, c: CustodyKey, amount: u64, credited: nat)
    requires CashedOut(s, t, c, amount, credited)
    ensures Progressed(s, t)
  {
    hide Progressed, GetPayout;
    SameTerms(s, t);
    SameQuotes(s, t);
    TwoQuietEvents(s, t);
    RecordProgress(s, t);
  }

  lemma TwoQuietEvents(s: System, t: System)
    requires Spent(s, t)
    ensures forall o :: Total(t.log, MintedOf(o)) == Total(s.log, MintedOf(o))
  {
    forall o ensures Total(t.log, MintedOf(o)) == Total(s.log, MintedOf(o)) {
      assert Total(t.log.before, MintedOf(o)) == Total(s.log, MintedOf(o));
    }
  }

  lemma DeliveryProgress(s: System, t: System, d: Delivery)
    requires Delivered(s, t, d)
    ensures Progressed(s, t)
  {
    hide Progressed, GetPayout;
    SameTerms(s, t);
    SameQuotes(s, t);
    TwoQuietEvents(s, t);
    RecordProgress(s, t);
  }

  lemma ExitProgress(s: System, signer: Key, k: VaultKey, maker: Key, otoken: Key, settlerOtoken: Account,
                     pool: Account, to: Account, credited: nat)
    requires EmergencyWithdraw(s, signer, k, maker, otoken, settlerOtoken, pool, to, credited).Ok?
    ensures Progressed(s, EmergencyWithdraw(s, signer, k, maker, otoken, settlerOtoken, pool, to, credited).value)
  {
    hide Progressed, EmergencyWithdraw, BurnLeg, BurnAmount, Burn, Controller.EmergencyWithdrawVault;
    EmergencyWithdrawEffect(s, signer, k, maker, otoken, settlerOtoken, pool, to, credited);
    EmergencyMoves(BurnLeg(s, k, settlerOtoken), SettlerPda, k.id, pool, to, credited);
    var t := EmergencyWithdraw(s, signer, k, maker, otoken, settlerOtoken, pool, to, credited).value;
    VaultProgress(s, t, k, t.log.event);
  }

  lemma SettlerProgress(s: System, i: SettlerIx)
    requires Books(s) && ApplySettler(s, i).Ok?
    ensures Progressed(s, ApplySettler(s, i).value)
  {
    hide Progressed, Books, Settler.ExecuteOrder, Controller.Settle, EmergencyWithdraw, RedeemAndForward, CheckRedeemAccounts,
         Settler.PhysicalRedeem, CashedOut, Delivered;
    BooksBasics(s);
    match i
    case ExecuteOrder(a) => OrderProgress(s, a);
    case SettleVaultForMaker(operator, signer, k, pool, to, credited) => SettleProgress(s, signer, k, pool, to, credited);
    case EmergencyWithdrawOrder(signer, k, maker, otoken, settlerOtoken, pool, to, credited) =>
      ExitProgress(s, signer, k, maker, otoken, settlerOtoken, pool, to, credited);
    case RedeemForMM(operator, c, accounts, amount, credited) =>
      CashRoutesPayExactly(s, operator, c, accounts, amount, credited);
      CashProgress(s, ApplySettler(s, i).value, c, amount, credited);
    case MMSelfRedeem(maker, otoken, accounts, amount, credited) =>
      CashRoutesPayExactly(s, 0, CustodyKey(maker, otoken), accounts, amount, credited);
      CashProgress(s, ApplySettler(s, i).value, CustodyKey(maker, otoken), amount, credited);
    case PhysicalRedeem(d) =>
      PhysicalRedeemEffect(s, d);
      DeliveryProgress(s, ApplySettler(s, i).value, d);
    case WhitelistMaker(_, _, _) => QuoteProgress(s, i);
    case IncrementMakerNonce(_) => QuoteProgress(s, i);
    case CancelQuote(_, _) => QuoteProgress(s, i);
    case _ => SettlerPaper(s, i);
  }

  lemma SettlerPaper(s: System, i: SettlerIx)
    requires Books(s) && ApplySettler(s, i).Ok? && SettlerPaperwork(i)
    ensures Progressed(s, ApplySettler(s, i).value)
  {
    hide Progressed, Books, ApplySettler, PaperTrail;
    BooksBasics(s);
    SettlerPaperTrail(s, i);
    PaperProgress(s, ApplySettler(s, i).value);
  }

  lemma WorldProgress(s: System, i: WorldIx)
    requires ApplyWorld(s, i).Ok?
    ensures Progressed(s, ApplyWorld(s, i).value)
  {
    hide Progressed;
    var t := ApplyWorld(s, i).value;
    WorldShape(s, i);
    SameTerms(s, t);
    SameQuotes(s, t);
    RecordProgress(s, t);
  }

  lemma WorldShape(s: System, i: WorldIx)
    requires ApplyWorld(s, i).Ok?
    ensures var t := ApplyWorld(s, i).value;
            && t == s.(now := t.now, balances := t.balances, supply := t.supply, log := t.log) && s.now <= t.now
            && (t.log == s.log || (t.log.Then? && t.log.before == s.log && (t.log.event.OutsideCredit? || t.log.event.OutsideBurn?)))
  {
    hide Transfer, MintTo, Burn;
    match i
    case Tick(_) =>
    case Send(owner, from, to, units, credited) => TransferMoves(s, Wallet(owner), from, to, units, credited);
    case Issue(to, units) => MintToMoves(s, to.mint, to, units);
    case Spend(owner, from, units) => BurnMoves(s, Wallet(owner), from, units);
  }

  lemma StepProgress(s: System, i: Instruction)
    requires Books(s)
    ensures Progressed(s, Step(s, i))
  {
    hide Books, ApplyController, ApplyOracle, ApplySettler, ApplyWorld;
    if Apply(s, i).Ok? {
      match i
      case ToController(c) => ControllerProgress(s, c);
      case ToOracle(o) => OracleProgress(s, o);
      case ToSettler(b) => SettlerProgress(s, b);
      case Outside(w) => WorldProgress(s, w);
    }
  }

  /** From any state with sound books, over any run. */
  lemma {:induction false} RunProgress(s: System, steps: seq<Instruction>)
    requires Books(s)
    ensures Books(Run(s, steps)) && Progressed(s, Run(s, steps))
  {
    hide Books, Progressed, Step;
    if steps == [] {
      assert Progressed(s, s) by { Stays(s); }
    } else {
      var r := Run(s, steps[..|steps| - 1]);
      RunProgress(s, steps[..|steps| - 1]);
      StepKeeps(r, steps[|steps| - 1]);
      StepProgress(r, steps[|steps| - 1]);
      ProgressTrans(s, r, Run(s, steps));
    }
  }

  lemma Stays(s: System)
    ensures Progressed(s, s)
  {
  }
}
