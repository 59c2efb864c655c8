/** What a pool has to spare, from any reachable state to any later one: it only
    falls when oTokens are minted or an exit leaves some behind. */
module Runoff {
  import opened Wrappers
  import opened Ints
  import opened Payoff
  import opened Sums
  import opened FloorSums
  import opened Model
  import opened Tokens
  import opened Settler
  import opened SettlerBooks
  import opened OrderSteps
  import opened CustodySteps
  import opened DeliverySteps
  import opened PoolBooks
  import opened Solvency
  import opened SettlerPools
  import opened TokenLaw
  import opened WindDown
  import opened Machine
  import opened Invariants
  import opened Progress
  import Controller

  /** Instructions that mint oTokens. */
  predicate Issues(i: Instruction) {
    match i
    case ToController(c) => c.MintOtoken?
    case ToSettler(b) => b.ExecuteOrder?
    case _ => false
  }

  /** A forecast that the prices recorded so far bear out. */
  ghost predicate Borne(s: System, q: Forecast) {
    forall o | o in s.series && s.series[o].price > 0 :: s.series[o].price == q(o)
  }

  // ---------------------------------------------------------------- one series

  /** The shorts of a series rounded one by one. */
  ghost function FloorSum(s: System, otoken: Key): int
    requires otoken in s.series
  {
    MapSum(Floors(ShortMap(s, otoken), Numerator(s.series[otoken]), Denominator(s.series[otoken])))
  }

  /** The terms of a series and all it was written for, as they were. */
  ghost predicate SameWriting(s: System, t: System, otoken: Key) {
    && otoken in s.series && otoken in t.series
    && t.series[otoken] == s.series[otoken].(price := t.series[otoken].price)
    && FloorSum(t, otoken) == FloorSum(s, otoken)
  }

  /** Its net does not fall when what is outstanding and what was paid together do
      not rise. */
  lemma NetSteady(s: System, t: System, q: Forecast, otoken: Key)
    requires SameWriting(s, t, otoken) && Borne(s, q) && Borne(t, q)
    requires DueAt(t, q, otoken, t.Supply(otoken)) + Total(t.log, PaidFor(otoken))
          <= DueAt(s, q, otoken, s.Supply(otoken)) + Total(s.log, PaidFor(otoken))
    ensures Net(t, q, otoken) >= Net(s, q, otoken)
  {
    hide Net, Payoff.Worth, InTheMoney, ShortMap;
    NetIsFloors(s, q, otoken);
    NetIsFloors(t, q, otoken);
  }

  lemma DueMono(s: System, t: System, q: Forecast, otoken: Key)
    requires otoken in s.series && otoken in t.series && t.series[otoken] == s.series[otoken].(price := t.series[otoken].price)
    requires Borne(s, q) && Borne(t, q) && t.Supply(otoken) <= s.Supply(otoken)
    ensures DueAt(t, q, otoken, t.Supply(otoken)) <= DueAt(s, q, otoken, s.Supply(otoken))
  {
    hide Payoff.Worth, InTheMoney;
    var o := s.series[otoken];
    WorthMono(o.strike, o.isPut, o.decimals, t.Supply(otoken), s.Supply(otoken));
  }

  // ---------------------------------------------------------------- one pool

  /** No series of the pool loses, new ones start at nothing, gifts stay. */
  lemma SlackSteady(s: System, t: System, q: Forecast, mint: Key)
    requires forall o | o in s.series :: o in t.series && t.series[o].collateralMint == s.series[o].collateralMint
    requires forall o | o in s.series && s.series[o].collateralMint == mint :: Net(t, q, o) >= Net(s, q, o)
    requires forall o | o in t.series && o !in s.series :: Net(t, q, o) >= 0
    requires Total(t.log, GiftsTo(PoolPurse(mint))) >= Total(s.log, GiftsTo(PoolPurse(mint)))
    ensures Slack(t, q, mint) >= Slack(s, q, mint)
  {
    hide Net, Slack;
    SlackIsNet(s, q, mint);
    SlackIsNet(t, q, mint);
    var before, after := NetMap(s, q, mint), NetMap(t, q, mint);
    var padded := map o | o in t.series :: if o in before then before[o] else 0;
    SumMono(padded, after);
    SumPadded(before, padded);
  }

  /** Zeros more do not change a sum. */
  lemma {:induction false} SumPadded<K(!new)>(a: map<K, int>, b: map<K, int>)
    requires a.Keys <= b.Keys
    requires forall k | k in b :: b[k] == if k in a then a[k] else 0
    ensures MapSum(b) == MapSum(a)
    decreases |b|
  {
    if b == map[] {
      assert a == map[];
    } else {
      var k :| k in b;
      SumRemove(b, k);
      if k in a {
        SumRemove(a, k);
        SumPadded(a - {k}, b - {k});
      } else {
        SumPadded(a, b - {k});
      }
    }
  }

  // ---------------------------------------------------------------- step shapes

  ghost predicate Spared(s: System, t: System, q: Forecast) {
    Borne(s, q) && Borne(t, q) ==> forall mint :: Slack(t, q, mint) >= Slack(s, q, mint)
  }

  /** Vaults as they were, at most one event, and no more oTokens of any series. */
  lemma IdleSpared(s: System, t: System, q: Forecast)
    requires t.vaults == s.vaults && t.series == s.series
    requires t.log == s.log || (t.log.Then? && t.log.before == s.log && Neutral(t.log.event))
    requires forall o | o in s.series :: t.Supply(o) <= s.Supply(o)
    ensures Spared(s, t, q)
  {
    hide Net, Slack, DueAt, Borne;
    if Borne(s, q) && Borne(t, q) {
      forall o | o in s.series ensures Net(t, q, o) >= Net(s, q, o) {
        assert ShortMap(t, o) == ShortMap(s, o);
        DueMono(s, t, q, o);
        NetSteady(s, t, q, o);
      }
      forall mint ensures Slack(t, q, mint) >= Slack(s, q, mint) {
        SlackSteady(s, t, q, mint);
      }
    }
  }

  /** A redemption takes off the outstanding oTokens at least what it pays. */
  lemma RedemptionSpared(s: System, t: System, otoken: Key, amount: u64, payout: nat, q: Forecast)
    requires Inv(s) && otoken in s.series && s.series[otoken].price > 0 && s.series[otoken].Payout(amount) == Ok(payout)
    requires amount <= s.Supply(otoken)
    requires t.vaults == s.vaults && t.series == s.series && t.log == Then(s.log, Redeemed(otoken, amount, payout))
    requires forall o :: t.Supply(o) == s.Supply(o) - (if o == otoken then amount else 0)
    ensures Spared(s, t, q)
  {
    hide Net, Slack, DueAt, Borne, Inv, GetPayout, Payoff.Worth;
    if Borne(s, q) && Borne(t, q) {
      forall o | o in s.series ensures Net(t, q, o) >= Net(s, q, o) {
        assert ShortMap(t, o) == ShortMap(s, o);
        if o == otoken {
          RedeemedDue(s, t, otoken, amount, payout, q);
        } else {
          DueMono(s, t, q, o);
        }
        NetSteady(s, t, q, o);
      }
      forall mint ensures Slack(t, q, mint) >= Slack(s, q, mint) {
        SlackSteady(s, t, q, mint);
      }
    }
  }

  lemma RedeemedDue(s: System, t: System, otoken: Key, amount: u64, payout: nat, q: Forecast)
    requires Inv(s) && otoken in s.series && s.series[otoken].price > 0 && s.series[otoken].Payout(amount) == Ok(payout)
    requires t.series == s.series && t.Supply(otoken) == s.Supply(otoken) - amount
    ensures DueAt(t, q, otoken, t.Supply(otoken)) + payout <= DueAt(s, q, otoken, s.Supply(otoken))
  {
    hide Inv, Payoff.Worth;
    var o := s.series[otoken];
    InvSeriesOk(s, otoken);
    RequirementIsExact(o, amount);
    WorthAdd(o.strike, o.isPut, o.decimals, t.Supply(otoken), amount);
  }

  /** A step on one vault that leaves its live short alone. */
  lemma VaultSpared(s: System, t: System, k: VaultKey, e: Event, q: Forecast)
    requires OnVault(s, t, k, e)
    requires forall o :: LiveShort(t, k, o) == LiveShort(s, k, o) && t.Supply(o) == s.Supply(o)
    ensures Spared(s, t, q)
  {
    hide Net, Slack, DueAt, Borne, LiveShort;
    if Borne(s, q) && Borne(t, q) {
      forall o | o in s.series ensures Net(t, q, o) >= Net(s, q, o) {
        VaultFloors(s, t, k, e, o);
        DueMono(s, t, q, o);
        assert PaymentsOf(t.log, o) == PaymentsOf(s.log, o);
        NetSteady(s, t, q, o);
      }
      forall mint ensures Slack(t, q, mint) >= Slack(s, q, mint) {
        SlackSteady(s, t, q, mint);
      }
    }
  }

  lemma VaultFloors(s: System, t: System, k: VaultKey, e: Event, otoken: Key)
    requires OnVault(s, t, k, e) && otoken in s.series && LiveShort(t, k, otoken) == LiveShort(s, k, otoken)
    ensures FloorSum(t, otoken) == FloorSum(s, otoken)
  {
    hide Numerator, LiveShort;
    var o := s.series[otoken];
    var before, after := Floors(ShortMap(s, otoken), Numerator(o), Denominator(o)), Floors(ShortMap(t, otoken), Numerator(o), Denominator(o));
    forall j | j in s.vaults && j != k ensures LiveShort(t, j, otoken) == LiveShort(s, j, otoken) {
      OtherShort(s, t, k, e, j, otoken);
    }
    if k in s.vaults {
      assert after == before;
    } else {
      assert LiveShort(s, k, otoken) == 0 by { NoVaultNoShort(s, k, otoken); }
      WorthIsDivision(o, 0);
      WorthOfNothing(o);
      SumPadded(before, after);
    }
  }

  lemma NoVaultNoShort(s: System, k: VaultKey, otoken: Key)
    requires k !in s.vaults
    ensures LiveShort(s, k, otoken) == 0
  {
  }

  /** A series registered or priced. */
  lemma SeriesSpared(s: System, t: System, otoken: Key, q: Forecast)
    requires Inv(s) && SeriesAdvance(s, t, otoken) && (otoken !in s.series ==> s.Supply(otoken) == 0)
    ensures Spared(s, t, q)
  {
    hide Net, Slack, DueAt, Borne, Inv;
    if Borne(s, q) && Borne(t, q) {
      forall o | o in s.series ensures Net(t, q, o) >= Net(s, q, o) {
        assert ShortMap(t, o) == ShortMap(s, o);
        DueMono(s, t, q, o);
        NetSteady(s, t, q, o);
      }
      if otoken !in s.series {
        NewSeriesNet(s, t, otoken, q);
      }
      forall mint ensures Slack(t, q, mint) >= Slack(s, q, mint) {
        SlackSteady(s, t, q, mint);
      }
    }
  }

  lemma NewSeriesNet(s: System, t: System, otoken: Key, q: Forecast)
    requires Inv(s) && SeriesAdvance(s, t, otoken) && otoken !in s.series && s.Supply(otoken) == 0
    ensures Net(t, q, otoken) == 0
  {
    hide Net, Balanced, VaultIds, InTheMoney;
    var o := t.series[otoken];
    NetIsFloors(t, q, otoken);
    assert PaymentsOf(s.log, otoken) == Payments(0, 0, 0);
    WorthOfNothing(o);
    WorthIsDivision(o, 0);
    var floors := Floors(ShortMap(t, otoken), Numerator(o), Denominator(o));
    forall k | k in t.vaults ensures floors[k] == 0 {
      assert Sound(s.vaults[k], s.series, FlowsOf(s.log, k));
      assert LiveShort(t, k, otoken) == 0;
    }
    SumZero(floors);
  }

  /** An exit that burns the whole short: what comes off the outstanding oTokens is
      worth at least the short. */
  lemma ExitSpared(s: System, t: System, k: VaultKey, e: Event, q: Forecast)
    requires Inv(s) && OnVault(s, t, k, e) && e.Withdrawn? && k in s.vaults && !s.vaults[k].settled
    requires t.vaults[k] == s.vaults[k].(settled := true) && s.vaults[k].short <= s.Supply(s.vaults[k].otoken)
    requires forall o :: t.Supply(o) == s.Supply(o) - (if o == s.vaults[k].otoken then s.vaults[k].short else 0)
    ensures Spared(s, t, q)
  {
    hide Inv, Slack, Borne, LiveShort, Net, DueAt;
    RescuedShort(s, t, k, e);
    if s.vaults[k].short == 0 {
      forall o ensures LiveShort(t, k, o) == LiveShort(s, k, o) {
      }
      VaultSpared(s, t, k, e, q);
    } else if Borne(s, q) && Borne(t, q) {
      CleanCost(s, k, q);
      ExitSlack(s, t, k, e, s.vaults[k].short, q);
      forall mint | mint != s.vaults[k].collateralMint ensures Slack(t, q, mint) >= Slack(s, q, mint) {
        ExitOtherPool(s, t, k, e, q, mint);
      }
    }
  }

  lemma CleanCost(s: System, k: VaultKey, q: Forecast)
    requires k in s.vaults && s.vaults[k].otoken in s.series && s.vaults[k].short <= s.Supply(s.vaults[k].otoken)
    ensures ExitCost(s, q, k, s.vaults[k].short) <= 0
  {
    hide Payoff.Worth;
    var v := s.vaults[k];
    var o := s.series[v.otoken];
    WorthAdd(o.strike, o.isPut, o.decimals, v.short, s.Supply(v.otoken) - v.short);
  }

  lemma ExitOtherPool(s: System, t: System, k: VaultKey, e: Event, q: Forecast, mint: Key)
    requires Inv(s) && OnVault(s, t, k, e) && k in s.vaults && t.vaults[k].otoken == s.vaults[k].otoken
    requires s.vaults[k].otoken in s.series && mint != s.vaults[k].collateralMint
    requires forall o | o != s.vaults[k].otoken :: t.Supply(o) == s.Supply(o)
    ensures Slack(t, q, mint) >= Slack(s, q, mint)
  {
    hide Inv, Net, Slack;
    assert s.series[s.vaults[k].otoken].collateralMint == s.vaults[k].collateralMint by {
      InvVault(s, k);
      InvSeriesOk(s, s.vaults[k].otoken);
    }
    forall o | o in s.series && s.series[o].collateralMint == mint ensures Net(t, q, o) >= Net(s, q, o) {
      ExitElsewhere(s, t, k, e, q, o);
    }
    SlackSteady(s, t, q, mint);
  }

  // ---------------------------------------------------------------- instructions

  lemma SameShort(s: System, t: System, k: VaultKey, e: Event)
    requires OnVault(s, t, k, e) && !e.Withdrawn? && k in s.vaults
    requires t.vaults[k].otoken == s.vaults[k].otoken && t.vaults[k].short == s.vaults[k].short
    ensures forall o :: LiveShort(t, k, o) == LiveShort(s, k, o)
  {
  }

  lemma OpenSpared(s: System, owner: Holder, mint: Key, beneficiary: Holder, q: Forecast)
    requires Controller.OpenVault(s, owner, mint, beneficiary).Ok?
    ensures Spared(s, Controller.OpenVault(s, owner, mint, beneficiary).value, q)
  {
    hide Spared;
    var t := Controller.OpenVault(s, owner, mint, beneficiary).value;
    VaultSpared(s, t, VaultKey(owner, s.counters[owner]), t.log.event, q);
  }

  lemma DepositSpared(s: System, owner: Holder, id: nat, from: Account, pool: Account, amount: u64, credited: nat, q: Forecast)
    requires Controller.Deposit(s, owner, id, from, pool, amount, credited).Ok?
    ensures Spared(s, Controller.Deposit(s, owner, id, from, pool, amount, credited).value, q)
  {
    hide Spared, Controller.Deposit, LiveShort;
    DepositMoves(s, owner, id, from, pool, amount, credited);
    var t := Controller.Deposit(s, owner, id, from, pool, amount, credited).value;
    SameShort(s, t, VaultKey(owner, id), t.log.event);
    VaultSpared(s, t, VaultKey(owner, id), t.log.event, q);
  }

  lemma SettleSpared(s: System, signer: Key, k: VaultKey, pool: Account, to: Account, credited: nat, q: Forecast)
    requires Controller.Settle(s, signer, k.owner, k.id, pool, to, credited).Ok?
    ensures Spared(s, Controller.Settle(s, signer, k.owner, k.id, pool, to, credited).value, q)
  {
    hide Spared, Controller.Settle, LiveShort, GetPayout;
    SettleMoves(s, signer, k.owner, k.id, pool, to, credited);
    var t := Controller.Settle(s, signer, k.owner, k.id, pool, to, credited).value;
    SameShort(s, t, k, t.log.event);
    VaultSpared(s, t, k, t.log.event, q);
  }

  lemma RedeemSpared(s: System, redeemer: Holder, otoken: Key, from: Account, to: Account, pool: Account, amount: u64, credited: nat, q: Forecast)
    requires Inv(s) && Controller.Redeem(s, redeemer, otoken, from, to, pool, amount, credited).Ok?
    ensures Spared(s, Controller.Redeem(s, redeemer, otoken, from, to, pool, amount, credited).value, q)
  {
    hide Spared, Controller.Redeem, GetPayout, Inv;
    RedeemMoves(s, redeemer, otoken, from, to, pool, amount, credited);
    RedemptionSpared(s, Controller.Redeem(s, redeemer, otoken, from, to, pool, amount, credited).value, otoken, amount,
                     s.series[otoken].Payout(amount).value, q);
  }

  lemma WithdrawSpared(s: System, owner: Holder, id: nat, pool: Account, to: Account, credited: nat, q: Forecast)
    requires Inv(s) && Controller.EmergencyWithdrawVault(s, owner, id, pool, to, credited).Ok?
    requires VaultKey(owner, id) in s.vaults && s.vaults[VaultKey(owner, id)].short == 0
    ensures Spared(s, Controller.EmergencyWithdrawVault(s, owner, id, pool, to, credited).value, q)
  {
    hide Spared, Controller.EmergencyWithdrawVault, Inv;
    EmergencyMoves(s, owner, id, pool, to, credited);
    var t := Controller.EmergencyWithdrawVault(s, owner, id, pool, to, credited).value;
    ExitSpared(s, t, VaultKey(owner, id), t.log.event, q);
  }

  lemma SettlerExitSpared(s: System, signer: Key, k: VaultKey, maker: Key, otoken: Key, settlerOtoken: Account,
                          pool: Account, to: Account, credited: nat, q: Forecast)
    requires Books(s) && EmergencyWithdraw(s, signer, k, maker, otoken, settlerOtoken, pool, to, credited).Ok?
    requires k in s.vaults && k in s.attributions && !s.vaults[k].settled ==> BurnAmount(s, k) == s.vaults[k].short
    ensures Spared(s, EmergencyWithdraw(s, signer, k, maker, otoken, settlerOtoken, pool, to, credited).value, q)
  {
    hide Spared, EmergencyWithdraw, Inv, SettlerInv, BurnAmount;
    SettlerAttributions(s);
    ExitEffect(s, signer, k, maker, otoken, settlerOtoken, pool, to, credited);
    ExitRescues(s, signer, k, maker, otoken, settlerOtoken, pool, to, credited);
    var t := EmergencyWithdraw(s, signer, k, maker, otoken, settlerOtoken, pool, to, credited).value;
    assert t.Supply(s.vaults[k].otoken) == s.Supply(s.vaults[k].otoken) - s.vaults[k].short;
    ExitSpared(s, t, k, t.log.event, q);
  }

  /** A redemption by the settler: the controller's event and the settler's own. */
  lemma SpentSpared(s: System, t: System, otoken: Key, amount: u64, payout: nat, q: Forecast)
    requires Inv(s) && Spent(s, t) && otoken in s.series && s.series[otoken].price > 0 && s.series[otoken].Payout(amount) == Ok(payout)
    requires t.log.before.event == Redeemed(otoken, amount, payout) && amount <= s.Supply(otoken)
    requires t.vaults == s.vaults && t.series == s.series && t.supply == s.supply[otoken := s.Supply(otoken) - amount]
    ensures Spared(s, t, q)
  {
    hide Inv, GetPayout, Spared;
    var mid := t.(log := t.log.before);
    RedemptionSpared(s, mid, otoken, amount, payout, q);
    IdleSpared(mid, t, q);
    SparedTrans(s, mid, t, q);
  }

  lemma CashSpared(s: System, t: System, c: CustodyKey, amount: u64, credited: nat, q: Forecast)
    requires Inv(s) && CashedOut(s, t, c, amount, credited)
    ensures Spared(s, t, q)
  {
    hide Inv, GetPayout, Spared;
    SpentSpared(s, t, c.otoken, amount, s.series[c.otoken].Payout(amount).value, q);
  }

  lemma DeliverySpared(s: System, t: System, d: Delivery, q: Forecast)
    requires Inv(s) && Delivered(s, t, d)
    ensures Spared(s, t, q)
  {
    hide Inv, GetPayout, Spared;
    SpentSpared(s, t, d.custody.otoken, d.amount, s.series[d.custody.otoken].Payout(d.amount).value, q);
  }

  lemma SparedTrans(r: System, s: System, t: System, q: Forecast)
    requires Spared(r, s, q) && Spared(s, t, q) && (Borne(t, q) ==> Borne(s, q))
    ensures Spared(r, t, q)
  {
    hide Borne, Slack;
  }

  lemma TrailSpared(s: System, t: System, q: Forecast)
    requires PaperTrail(s, t)
    ensures Spared(s, t, q)
  {
    hide Spared;
    IdleSpared(s, t, q);
  }

  lemma ControllerSpared(s: System, i: ControllerIx, q: Forecast)
    requires Books(s) && ApplyController(s, i).Ok? && !Issues(ToController(i)) && CleanExit(s, ToController(i))
    ensures Spared(s, ApplyController(s, i).value, q)
  {
    hide Spared, Inv, SettlerInv, Controller.InitializeCounter, Controller.OpenVault, Controller.Deposit, Controller.Mint,
         Controller.Settle, Controller.Redeem, Controller.EmergencyWithdrawVault, Controller.CreateSeries,
         Controller.SetExpiryPrice, Controller.SetPartialPauser, Controller.SetPartiallyPaused, Controller.SetFullyPaused;
    BooksBasics(s);
    match i
    case OpenVault(owner, mint, beneficiary) => OpenSpared(s, Wallet(owner), mint, beneficiary, q);
    case DepositCollateral(owner, id, from, pool, amount, credited) =>
      DepositSpared(s, Wallet(owner), id, from, pool, amount, credited, q);
    case SettleVault(signer, k, pool, to, credited) => SettleSpared(s, signer, k, pool, to, credited, q);
    case Redeem(redeemer, otoken, from, to, pool, amount, credited) =>
      RedeemSpared(s, Wallet(redeemer), otoken, from, to, pool, amount, credited, q);
    case EmergencyWithdrawVault(owner, id, pool, to, credited) =>
      EmergencyMoves(s, Wallet(owner), id, pool, to, credited);
      WithdrawSpared(s, Wallet(owner), id, pool, to, credited, q);
    case CreateOTokenInfo(_, _, _, _) => ListedSpared(s, i, q);
    case SetSeriesPrice(_, _) => ListedSpared(s, i, q);
    case _ => ControllerPaperSpared(s, i, q);
  }

  lemma ListedSpared(s: System, i: ControllerIx, q: Forecast)
    requires Inv(s) && ApplyController(s, i).Ok? && (i.CreateOTokenInfo? || i.SetSeriesPrice?)
    ensures Spared(s, ApplyController(s, i).value, q)
  {
    hide Spared, Inv, Controller.OpenVault, Controller.Deposit, Controller.Mint, Controller.Settle, Controller.Redeem,
         Controller.EmergencyWithdrawVault;
    SeriesSpared(s, ApplyController(s, i).value, i.otoken, q);
  }

  lemma ControllerPaperSpared(s: System, i: ControllerIx, q: Forecast)
    requires ConfigOk(s.settler) && ControllerPaperwork(i) && ApplyController(s, i).Ok?
    ensures Spared(s, ApplyController(s, i).value, q)
  {
    hide Spared, ApplyController, PaperTrail;
    ControllerPaperTrail(s, i);
    TrailSpared(s, ApplyController(s, i).value, q);
  }

  lemma RecordsSpared(s: System, i: SettlerIx, q: Forecast)
    requires ConfigOk(s.settler) && ApplySettler(s, i).Ok?
    requires SettlerPaperwork(i) || i.WhitelistMaker? || i.IncrementMakerNonce? || i.CancelQuote?
    ensures Spared(s, ApplySettler(s, i).value, q)
  {
    hide Spared, Settler.ExecuteOrder, Settler.SettleVault, Settler.EmergencyWithdraw, Settler.RedeemForMM, Settler.MMSelfRedeem,
         Settler.PhysicalRedeem;
    IdleSpared(s, ApplySettler(s, i).value, q);
  }

  lemma SettlerSpared(s: System, i: SettlerIx, q: Forecast)
    requires Books(s) && ApplySettler(s, i).Ok? && !Issues(ToSettler(i)) && CleanExit(s, ToSettler(i))
    ensures Spared(s, ApplySettler(s, i).value, q)
  {
    hide Spared, Inv, SettlerInv, Controller.Settle, EmergencyWithdraw, RedeemAndForward, CheckRedeemAccounts, Settler.PhysicalRedeem,
         Settler.WhitelistMaker, Settler.IncrementNonce, Settler.CancelQuote, Settler.SetProtocolFee, Settler.SetEscapeDelay,
         Settler.SetTreasury, Settler.SetPaused, Settler.SetOperator, Settler.SetJupiterProgram, Controller.InitializeCounter,
         GetPayout, BurnAmount, CashedOut, Delivered;
    BooksBasics(s);
    match i
    case SettleVaultForMaker(operator, signer, k, pool, to, credited) => SettleSpared(s, signer, k, pool, to, credited, q);
    case EmergencyWithdrawOrder(signer, k, maker, otoken, settlerOtoken, pool, to, credited) =>
      SettlerExitSpared(s, signer, k, maker, otoken, settlerOtoken, pool, to, credited, q);
    case RedeemForMM(operator, c, accounts, amount, credited) =>
      CashRoutesPayExactly(s, operator, c, accounts, amount, credited);
      CashSpared(s, ApplySettler(s, i).value, c, amount, credited, q);
    case MMSelfRedeem(maker, otoken, accounts, amount, credited) =>
      CashRoutesPayExactly(s, 0, CustodyKey(maker, otoken), accounts, amount, credited);
      CashSpared(s, ApplySettler(s, i).value, CustodyKey(maker, otoken), amount, credited, q);
    case PhysicalRedeem(d) =>
      PhysicalRedeemEffect(s, d);
      DeliverySpared(s, ApplySettler(s, i).value, d, q);
    case _ => RecordsSpared(s, i, q);
  }

  lemma WorldSpared(s: System, i: WorldIx, q: Forecast)
    requires ApplyWorld(s, i).Ok?
    ensures Spared(s, ApplyWorld(s, i).value, q)
  {
    hide Spared, ApplyWorld;
    WorldShape(s, i);
    WorldSupply(s, i);
    IdleSpared(s, ApplyWorld(s, i).value, q);
  }

  /** Nobody outside issues oTokens. */
  lemma WorldSupply(s: System, i: WorldIx)
    requires ApplyWorld(s, i).Ok?
    ensures forall o | o in s.series :: ApplyWorld(s, i).value.Supply(o) <= s.Supply(o)
  {
    hide Transfer, MintTo, Burn;
    match i
    case Tick(_) =>
    case Send(owner, from, to, units, credited) => TransferMoves(s, Wallet(owner), from, to, units, credited);
    case Issue(to, units) => MintToMoves(s, to.mint, to, units);
    case Spend(owner, from, units) => BurnMoves(s, Wallet(owner), from, units);
  }

  lemma StepSpared(s: System, i: Instruction, q: Forecast)
    requires Books(s) && !Issues(i) && CleanExit(s, i)
    ensures Spared(s, Step(s, i), q)
  {
    hide Books, ApplyController, ApplyOracle, ApplySettler, ApplyWorld, CleanExit, Issues, Spared;
    assert Spared(s, s, q) by { NothingSpared(s, q); }
    if Apply(s, i).Ok? {
      match i
      case ToController(c) => ControllerSpared(s, c, q);
      case ToOracle(o) =>
        BooksBasics(s);
        OracleTrail(s, o);
        TrailSpared(s, ApplyOracle(s, o).value, q);
      case ToSettler(b) => SettlerSpared(s, b, q);
      case Outside(w) => WorldSpared(s, w, q);
    }
  }

  lemma NothingSpared(s: System, q: Forecast)
    ensures Spared(s, s, q)
  {
  }

  // ---------------------------------------------------------------- runs

  lemma BorneBefore(s: System, t: System, q: Forecast)
    requires Progressed(s, t) && Borne(t, q)
    ensures Borne(s, q)
  {
  }

  /** Over any run that mints nothing and whose exits leave no oTokens behind, no
      pool has less to spare afterwards, at any forecast the run bears out:
      settlements and redemptions in whatever order never eat into it. */
  lemma {:induction false} SlackPersists(s: System, steps: seq<Instruction>, q: Forecast, mint: Key)
    requires Books(s) && CleanRun(s, steps) && Borne(Run(s, steps), q)
    requires forall j | 0 <= j < |steps| :: !Issues(steps[j])
    ensures Borne(s, q) && Slack(Run(s, steps), q, mint) >= Slack(s, q, mint)
  {
    hide Books, Step, CleanExit, Issues, Slack, Borne, Progressed;
    if steps != [] {
      var before := steps[..|steps| - 1];
      var r := Run(s, before);
      RunProgress(s, before);
      StepProgress(r, steps[|steps| - 1]);
      BorneBefore(r, Run(s, steps), q);
      SlackPersists(s, before, q, mint);
      StepSpared(r, steps[|steps| - 1], q);
    }
  }

  /** So once a pool has enough, nobody is refused: after any such run every
      settlement and every redemption whose other checks pass succeeds, out of an
      account that holds the pool and for any credit the mint lets through. */
  lemma NobodyRefused(s: System, early: seq<Instruction>, late: seq<Instruction>, q: Forecast, mint: Key, pool: nat)
    requires Initial(s) && CleanRun(Run(s, early), late) && Slack(Run(s, early), q, mint) >= 0
    requires forall j | 0 <= j < |late| :: !Issues(late[j])
    requires Borne(Run(Run(s, early), late), q) && InOneAccount(Run(Run(s, early), late), PoolAccount(mint, pool))
    ensures var t := Run(Run(s, early), late);
            && (forall k, to, credited: nat | Settleable(t, k) && t.vaults[k].collateralMint == mint && credited <= Returnable(t, k)
                  :: SettleOf(t, k, pool, to, credited).Ok?)
            && (forall redeemer, otoken, from, to, amount: u64, credited: nat
                  | Redeemable(t, redeemer, otoken, from, amount) && t.series[otoken].collateralMint == mint
                    && credited <= Due(t.series[otoken], amount)
                  :: RedeemOf(t, redeemer, otoken, from, to, pool, amount, credited).Ok?)
  {
    hide Initial, Run, CleanRun, Inv, SettlerInv, Lawful, Slack, Borne, SettleOf, RedeemOf, Issues, Payoff.Worth;
    var r, t := Run(s, early), Run(Run(s, early), late);
    RunKeeps(s, early);
    RunProgress(r, late);
    RunLawful(s, early);
    StaysLawful(r, late);
    SlackPersists(r, late, q, mint);
    forall k, to, credited: nat | Settleable(t, k) && t.vaults[k].collateralMint == mint && credited <= Returnable(t, k)
      ensures SettleOf(t, k, pool, to, credited).Ok?
    {
      SettlementSucceeds(t, k, q, pool, to, credited);
    }
    forall redeemer, otoken, from, to, amount: u64, credited: nat
      | Redeemable(t, redeemer, otoken, from, amount) && t.series[otoken].collateralMint == mint && credited <= Due(t.series[otoken], amount)
      ensures RedeemOf(t, redeemer, otoken, from, to, pool, amount, credited).Ok?
    {
      RedemptionSucceeds(t, redeemer, otoken, from, to, pool, amount, q, credited);
    }
  }
}
