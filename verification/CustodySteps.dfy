/** The instructions that take oTokens out of the settler's custody, against the
    ledgers, and what each party ends up with. */
module CustodySteps {
  import opened Wrappers
  import opened Ints
  import opened Payoff
  import opened Sums
  import opened Model
  import opened Tokens
  import opened Settler
  import opened SettlerBooks
  import opened OrderSteps
  import opened PoolBooks
  import Controller

  // ---------------------------------------------------------------- cash redemption

  /** What a cash redemption changes: the maker receives the measured payout and
      the settler keeps nothing. */
  ghost predicate CashedOut(s: System, t: System, c: CustodyKey, amount: u64, credited: nat) {
    && c in s.custody && 0 < amount <= s.custody[c] && amount <= s.Supply(c.otoken)
    && c.otoken in s.series && s.series[c.otoken].price > 0
    && s.series[c.otoken].Payout(amount).Ok?
    && var payout := s.series[c.otoken].Payout(amount).value;
       var mint := s.series[c.otoken].collateralMint;
    && t == s.(custody := s.custody[c := s.custody[c] - amount], balances := t.balances,
               supply := s.supply[c.otoken := s.Supply(c.otoken) - amount], log := t.log)
    && t.log == Then(Then(s.log, Redeemed(c.otoken, amount, payout)), MMRedeemed(c, amount))
    && forall p :: t.Balance(p) == s.Balance(p)
                   - (if p == CustodyPurse(c.otoken) then amount else 0)
                   - (if p == PoolPurse(mint) then payout else 0)
                   + (if p == Purse(Wallet(c.maker), mint) && payout > 0 then credited else 0)
  }

  /** Passing on what the redemption brought in. */
  lemma ForwardMoves(s: System, redeemed: System, c: CustodyKey, a: RedeemAccounts, payout: nat)
    requires payout > 0 ==> Transfer(redeemed, SettlerPda, a.settlerCollateral, a.mmCollateral, payout, payout).Ok?
    ensures var t := if payout > 0 then Transfer(redeemed, SettlerPda, a.settlerCollateral, a.mmCollateral, payout, payout).value else redeemed;
            && t == redeemed.(balances := t.balances)
            && forall p :: t.Balance(p) == redeemed.Balance(p) - (if p == PurseOf(a.settlerCollateral) then payout else 0)
                                           + (if p == PurseOf(a.mmCollateral) then payout else 0)
  {
    hide Transfer;
    if payout > 0 {
      TransferMoves(redeemed, SettlerPda, a.settlerCollateral, a.mmCollateral, payout, payout);
    }
  }

  /** What arrived is passed on, whatever the settler already held. */
  lemma CashBalances(s: System, r: System, t: System, c: CustodyKey, mint: Key, amount: nat, due: nat, arrived: nat, measured: int)
    requires mint != c.otoken
    requires forall p :: r.Balance(p) == s.Balance(p) - (if p == CustodyPurse(c.otoken) then amount else 0)
                         - (if p == PoolPurse(mint) then due else 0) + (if p == CustodyPurse(mint) then arrived else 0)
    requires measured == arrived
    requires forall p :: t.Balance(p) == r.Balance(p) - (if p == CustodyPurse(mint) then measured else 0)
                         + (if p == Purse(Wallet(c.maker), mint) then measured else 0)
    ensures forall p :: t.Balance(p) == s.Balance(p) - (if p == CustodyPurse(c.otoken) then amount else 0)
                        - (if p == PoolPurse(mint) then due else 0) + (if p == Purse(Wallet(c.maker), mint) then arrived else 0)
  {
  }

  lemma ForwardEffect(s: System, c: CustodyKey, a: RedeemAccounts, amount: u64, credited: nat)
    requires RedeemAndForward(s, c, a, amount, credited).Ok?
    ensures CashLeg(s, c, a, amount, credited).Ok?
    ensures var t, r := RedeemAndForward(s, c, a, amount, credited).value, CashLeg(s, c, a, amount, credited).value;
            var measured := r.Funds(a.settlerCollateral) - s.Funds(a.settlerCollateral);
            && t == r.(balances := t.balances, log := Then(r.log, MMRedeemed(c, amount)))
            && forall p :: t.Balance(p) == r.Balance(p) - (if p == PurseOf(a.settlerCollateral) then measured else 0)
                                           + (if p == PurseOf(a.mmCollateral) then measured else 0)
  {
    hide Controller.Redeem, Transfer;
    var t, r := RedeemAndForward(s, c, a, amount, credited).value, CashLeg(s, c, a, amount, credited).value;
    var measured := r.Funds(a.settlerCollateral) - s.Funds(a.settlerCollateral);
    ForwardMoves(s, r, c, a, measured);
    SameBalances(t.(log := r.log), t);
  }

  lemma CashLegEffect(s: System, c: CustodyKey, a: RedeemAccounts, amount: u64, credited: nat)
    requires CashLeg(s, c, a, amount, credited).Ok?
    ensures c in s.custody && 0 < amount <= s.custody[c] && amount <= s.Supply(c.otoken)
    ensures c.otoken in s.series && s.series[c.otoken].price > 0 && s.series[c.otoken].Payout(amount).Ok?
    ensures var r, mint := CashLeg(s, c, a, amount, credited).value, s.series[c.otoken].collateralMint;
            var due := s.series[c.otoken].Payout(amount).value;
            && PurseOf(a.settlerCollateral) == CustodyPurse(mint)
            && (mint != c.otoken ==> r.Funds(a.settlerCollateral) == s.Funds(a.settlerCollateral) + (if due > 0 then credited else 0))
            && r == s.(custody := s.custody[c := s.custody[c] - amount], balances := r.balances,
                       supply := s.supply[c.otoken := s.Supply(c.otoken) - amount],
                       log := Then(s.log, Redeemed(c.otoken, amount, due)))
            && forall p :: r.Balance(p) == s.Balance(p) - (if p == CustodyPurse(c.otoken) then amount else 0)
                           - (if p == PoolPurse(mint) then due else 0) + (if p == CustodyPurse(mint) && due > 0 then credited else 0)
  {
    hide Controller.Redeem, GetPayout;
    var debited := s.(custody := s.custody[c := s.custody[c] - amount]);
    RedeemMoves(debited, SettlerPda, c.otoken, a.settlerOtoken, a.settlerCollateral, a.pool, amount, credited);
    RedeemFunds(debited, SettlerPda, c.otoken, a.settlerOtoken, a.settlerCollateral, a.pool, amount, credited);
    RedeemPool(debited, SettlerPda, c.otoken, a.settlerOtoken, a.settlerCollateral, a.pool, amount, credited);
    SameBalances(debited, s);
  }

  lemma RedeemAndForwardEffect(s: System, c: CustodyKey, a: RedeemAccounts, amount: u64, credited: nat)
    requires RedeemAndForward(s, c, a, amount, credited).Ok?
    requires c.otoken in s.series && SeriesOk(s, c.otoken)
    requires CheckRedeemAccounts(s, c, a).Pass?
    ensures CashedOut(s, RedeemAndForward(s, c, a, amount, credited).value, c, amount, credited)
  {
    hide CashLeg, RedeemAndForward, GetPayout;
    ForwardEffect(s, c, a, amount, credited);
    CashLegEffect(s, c, a, amount, credited);
    var r, t := CashLeg(s, c, a, amount, credited).value, RedeemAndForward(s, c, a, amount, credited).value;
    var mint, due := s.series[c.otoken].collateralMint, s.series[c.otoken].Payout(amount).value;
    CashBalances(s, r, t, c, mint, amount, due, if due > 0 then credited else 0,
                 r.Funds(a.settlerCollateral) - s.Funds(a.settlerCollateral));
  }

  /** Both cash routes pay the maker exactly what the redemption brought in, which
      is the code's payout when the mint credits in full, and leave donations and
      every other account of the settler as they were. */
  lemma CashRoutesPayExactly(s: System, operator: Key, c: CustodyKey, a: RedeemAccounts, amount: u64, credited: nat)
    requires c.otoken in s.series ==> SeriesOk(s, c.otoken)
    ensures var r := RedeemForMM(s, operator, c, a, amount, credited);
            r.Ok? ==> CashedOut(s, r.value, c, amount, credited)
    ensures var r := MMSelfRedeem(s, c.maker, c.otoken, a, amount, credited);
            r.Ok? ==> CashedOut(s, r.value, c, amount, credited)
  {
    hide CashedOut, RedeemAndForward;
    if RedeemForMM(s, operator, c, a, amount, credited).Ok? {
      RedeemAndForwardEffect(s, c, a, amount, credited);
    }
    if MMSelfRedeem(s, c.maker, c.otoken, a, amount, credited).Ok? {
      RedeemAndForwardEffect(s, c, a, amount, credited);
    }
  }

  /** A debit of one custody entry and of the settler's purse of that mint. */
  lemma DebitBacked(s: System, t: System, c: CustodyKey, amount: nat, mint: Key)
    requires Backed(s, mint) && c in s.custody && amount <= s.custody[c]
    requires t.custody == s.custody[c := s.custody[c] - amount]
    requires Total(t.log, GiftsTo(CustodyPurse(mint))) == Total(s.log, GiftsTo(CustodyPurse(mint)))
    requires t.Balance(CustodyPurse(mint)) == s.Balance(CustodyPurse(mint)) - (if mint == c.otoken then amount else 0)
    ensures Backed(t, mint)
  {
    var x := if mint == c.otoken then s.custody[c] - amount else 0;
    assert CustodyMap(t, mint) == CustodyMap(s, mint)[c := x];
    SumUpdate(CustodyMap(s, mint), c, x);
  }

  lemma CashDrift(s: System, t: System, c: CustodyKey, amount: u64, credited: nat, d: CustodyKey)
    requires DriftOk(s, d) && CashedOut(s, t, c, amount, credited)
    ensures DriftOk(t, d)
  {
    assert RemainingMap(t, d) == RemainingMap(s, d);
  }

  lemma CashKeeps(s: System, t: System, c: CustodyKey, amount: u64, credited: nat)
    requires SettlerInv(s) && CashedOut(s, t, c, amount, credited)
    ensures SettlerInv(t)
  {
    forall d ensures DriftOk(t, d) { CashDrift(s, t, c, amount, credited, d); }
    forall mint ensures Backed(t, mint) { DebitBacked(s, t, c, amount, mint); }
    SpentAttributions(s, t);
    forall maker ensures FillsWritten(t, maker) { SpentFills(s, t, maker); }
    forall q ensures QuoteOk(t, q) { SpentQuotes(s, t, q); }
  }

  /** Two more events, a redemption and a report of it. */
  ghost predicate Spent(s: System, t: System) {
    && t.log.Then? && t.log.before.Then? && t.log.before.before == s.log
    && t.log.before.event.Redeemed? && (t.log.event.MMRedeemed? || t.log.event.PhysicalDelivery?)
  }

  lemma SpentAttributions(s: System, t: System)
    requires AttributionsOk(s) && Spent(s, t) && t.log.event.MMRedeemed?
    requires t.attributions == s.attributions && t.vaults == s.vaults && t.series == s.series && s.custody.Keys <= t.custody.Keys
    ensures AttributionsOk(t)
  {
    forall k ensures TrailOf(t.log, k) == TrailOf(s.log, k) {
      assert TrailOf(t.log.before, k) == TrailOf(s.log, k);
    }
  }

  lemma SpentFills(s: System, t: System, maker: Key)
    requires FillsWritten(s, maker) && t.fills == s.fills && t.vaults == s.vaults
    requires t.attributions.Keys == s.attributions.Keys
    requires forall k | k in s.attributions :: t.attributions[k].maker == s.attributions[k].maker
    ensures FillsWritten(t, maker)
  {
    assert FilledMap(t, maker) == FilledMap(s, maker);
    assert WrittenMap(t, maker) == WrittenMap(s, maker);
  }

  lemma SpentQuotes(s: System, t: System, q: QuoteKey)
    requires QuoteOk(s, q) && Spent(s, t) && t.fills == s.fills && t.makers == s.makers
    ensures QuoteOk(t, q)
  {
  }
}
