/** Physical delivery through an untrusted swap, against the ledgers, and what
    each party ends up with. */
module DeliverySteps {
  import opened Wrappers
  import opened Ints
  import opened Payoff
  import opened Sums
  import opened Model
  import opened Tokens
  import opened Settler
  import opened SettlerBooks
  import opened OrderSteps
  import opened CustodySteps
  import opened PoolBooks
  import Controller

  /** Of all but wallets, only accounts `a` and `b` moved, and their purses with
      them. */
  ghost predicate Tracked(s: System, t: System, a: Account, b: Account) {
    && (forall x: Account | !x.owner.Wallet? && x != a && x != b :: t.Funds(x) == s.Funds(x))
    && (forall p: Purse | !p.owner.Wallet? ::
          t.Balance(p) - s.Balance(p) == (if PurseOf(a) == p then t.Funds(a) - s.Funds(a) else 0)
                                         + (if b != a && PurseOf(b) == p then t.Funds(b) - s.Funds(b) else 0))
  }

  lemma TransferTracked(s: System, authority: Holder, from: Account, to: Account, amount: nat, credited: nat, a: Account, b: Account)
    requires Transfer(s, authority, from, to, amount, credited).Ok?
    requires (from.owner.Wallet? || from in {a, b}) && (to.owner.Wallet? || to in {a, b})
    requires !a.owner.Wallet? && !b.owner.Wallet?
    ensures Tracked(s, Transfer(s, authority, from, to, amount, credited).value, a, b)
  {
    hide Transfer;
    TransferMoves(s, authority, from, to, amount, credited);
    TransferFunds(s, authority, from, to, amount, credited);
  }

  lemma TrackedTrans(r: System, s: System, t: System, a: Account, b: Account)
    requires Tracked(r, s, a, b) && Tracked(s, t, a, b)
    ensures Tracked(r, t, a, b)
  {
  }

  /** A route moves nothing but tokens. */
  lemma {:induction false} TravelRecords(s: System, d: Delivery, route: seq<Hop>)
    requires Travel(s, d, route).Ok?
    ensures Travel(s, d, route).value == s.(balances := Travel(s, d, route).value.balances)
  {
    hide Transfer;
    if route != [] {
      var hop := route[|route| - 1];
      TravelRecords(s, d, route[..|route| - 1]);
      TransferMoves(Travel(s, d, route[..|route| - 1]).value, SettlerPda, hop.from, hop.to, hop.amount, hop.credited);
    }
  }

  /** A route only moves tokens, and only in accounts it may touch; the settler's
      purses move by what its two accounts do. */
  lemma {:induction false} TravelMoves(s: System, d: Delivery, route: seq<Hop>)
    requires Travel(s, d, route).Ok?
    requires d.accounts.settlerCollateral.owner == d.accounts.settlerContra.owner == SettlerPda
    ensures var t := Travel(s, d, route).value;
            && t == s.(balances := t.balances)
            && Tracked(s, t, d.accounts.settlerCollateral, d.accounts.settlerContra)
  {
    hide Transfer, Tracked;
    var a, b := d.accounts.settlerCollateral, d.accounts.settlerContra;
    if route == [] {
      assert Tracked(s, s, a, b) by { TrackedSelf(s, a, b); }
    } else {
      var hop := route[|route| - 1];
      TravelMoves(s, d, route[..|route| - 1]);
      var before := Travel(s, d, route[..|route| - 1]).value;
      TransferMoves(before, SettlerPda, hop.from, hop.to, hop.amount, hop.credited);
      TransferTracked(before, SettlerPda, hop.from, hop.to, hop.amount, hop.credited, a, b);
      TrackedTrans(s, before, Travel(s, d, route).value, a, b);
    }
  }

  lemma TrackedSelf(s: System, a: Account, b: Account)
    ensures Tracked(s, s, a, b)
  {
  }

  /** What the route leaves on an account. */
  ghost function AfterRoute(s: System, d: Delivery, a: Account): nat {
    if InvokeSwap(s, d).Ok? then InvokeSwap(s, d).value.Funds(a) else s.Funds(a)
  }

  /** The state of the accounts between redemption and swap. */
  ghost predicate Redeemed(s: System, r: System, d: Delivery) {
    var c := d.custody;
    && c in s.custody && 0 < d.amount <= s.custody[c] && d.amount <= s.Supply(c.otoken)
    && d.vault in s.attributions && d.amount <= s.attributions[d.vault].remaining
    && c.otoken in s.series && s.series[c.otoken].price > 0 && s.series[c.otoken].Payout(d.amount).Ok?
    && var payout := s.series[c.otoken].Payout(d.amount).value;
       var mint := s.series[c.otoken].collateralMint;
       var mm := s.attributions[d.vault];
    && r == s.(custody := s.custody[c := s.custody[c] - d.amount],
               attributions := s.attributions[d.vault := mm.(remaining := mm.remaining - d.amount)],
               balances := r.balances, supply := s.supply[c.otoken := s.Supply(c.otoken) - d.amount], log := r.log)
    && r.log == Then(s.log, Event.Redeemed(c.otoken, d.amount, payout))
    && forall p :: r.Balance(p) == s.Balance(p)
                   - (if p == CustodyPurse(c.otoken) then d.amount else 0)
                   - (if p == PoolPurse(mint) then payout else 0)
                   + (if p == Purse(SettlerPda, mint) && payout > 0 then d.credited else 0)
  }

  /** What the swap and the payments out of it do to the balances: the settler's
      two accounts are back where they started, the user and the maker gain. */
  ghost predicate Settlement(s: System, r: System, t: System, d: Delivery, o: Series, contra: nat) {
    var a := d.accounts;
    var received := r.Funds(a.settlerCollateral) - s.Funds(a.settlerCollateral);
    var used := r.Funds(a.settlerCollateral) - AfterRoute(r, d, a.settlerCollateral);
    var output := AfterRoute(r, d, a.settlerContra) - s.Funds(a.settlerContra);
    && received > 0 && used <= d.maxCollateralSpent
    && t == r.(balances := t.balances)
    && Tracked(r, t, a.settlerCollateral, a.settlerContra)
    && t.Funds(a.settlerCollateral) == s.Funds(a.settlerCollateral)
    && t.Funds(a.settlerContra) == s.Funds(a.settlerContra)
    && (forall x | x !in {a.settlerCollateral, a.settlerContra, a.userContra, a.mmCollateral} :: t.Funds(x) == AfterRoute(r, d, x))
    && (o.isPut ==> 0 < used <= received)
    && (!o.isPut ==> used == received && contra <= output)
    && (a.userContra != a.mmCollateral ==>
          && t.Funds(a.userContra) - s.Funds(a.userContra) >= contra
          && (!o.isPut ==> t.Funds(a.userContra) - s.Funds(a.userContra) == contra)
          && t.Funds(a.mmCollateral) == AfterRoute(r, d, a.mmCollateral) + (if o.isPut then received - used else output - contra))
    && (a.userContra == a.mmCollateral ==>
          t.Funds(a.userContra) - s.Funds(a.userContra) >= contra + (if o.isPut then received - used else output - contra))
  }

  /** What the checks after the swap let pass. */
  lemma DeliverChecks(s: System, r: System, w: System, d: Delivery, o: Series, received: nat, contra: u64)
    requires Deliver(s, r, w, d, o, received, contra).Ok?
    ensures var a := d.accounts;
            var used := r.Funds(a.settlerCollateral) - w.Funds(a.settlerCollateral);
            var output := w.Funds(a.settlerContra) - s.Funds(a.settlerContra);
            && 0 <= used <= d.maxCollateralSpent && output >= 0
            && (o.isPut ==> 0 < used <= received && output == 0 && w.Funds(a.userContra) - s.Funds(a.userContra) >= contra)
            && (!o.isPut ==> used == received && output >= contra && w.Funds(a.userContra) == s.Funds(a.userContra))
  {
    hide Transfer;
  }

  /** The transfers out of the settler after the swap. */
  lemma DeliverMoves(s: System, r: System, w: System, d: Delivery, o: Series, received: nat, contra: u64)
    requires Deliver(s, r, w, d, o, received, contra).Ok?
    requires d.accounts.settlerCollateral.owner == d.accounts.settlerContra.owner == SettlerPda
    requires d.accounts.userContra.owner.Wallet? && d.accounts.mmCollateral.owner.Wallet?
    ensures var t, a := Deliver(s, r, w, d, o, received, contra).value, d.accounts;
            var used := r.Funds(a.settlerCollateral) - w.Funds(a.settlerCollateral);
            var output := w.Funds(a.settlerContra) - s.Funds(a.settlerContra);
            && t == w.(balances := t.balances)
            && Tracked(w, t, a.settlerCollateral, a.settlerContra)
            && (o.isPut ==> forall x :: t.Funds(x) == w.Funds(x) - (if x == a.settlerCollateral then received - used else 0)
                                                       + (if x == a.mmCollateral then received - used else 0))
            && (!o.isPut ==> forall x :: t.Funds(x) == w.Funds(x) - (if x == a.settlerContra then output else 0)
                                                        + (if x == a.userContra then contra else 0)
                                                        + (if x == a.mmCollateral then output - contra else 0))
  {
    hide Transfer, Tracked;
    var a := d.accounts;
    var used := r.Funds(a.settlerCollateral) - w.Funds(a.settlerCollateral);
    var output := w.Funds(a.settlerContra) - s.Funds(a.settlerContra);
    if o.isPut {
      Pays(w, d, a.settlerCollateral, a.mmCollateral, received - used);
    } else {
      Pays(w, d, a.settlerContra, a.userContra, contra);
      var served := Transfer(w, SettlerPda, a.settlerContra, a.userContra, contra, contra).value;
      Pays(served, d, a.settlerContra, a.mmCollateral, output - contra);
      TrackedTrans(w, served, Deliver(s, r, w, d, o, received, contra).value, a.settlerCollateral, a.settlerContra);
    }
  }

  /** One payment out of the settler, if there is anything to pay. */
  lemma Pays(s: System, d: Delivery, from: Account, to: Account, amount: nat)
    requires from in {d.accounts.settlerCollateral, d.accounts.settlerContra} && to.owner.Wallet?
    requires d.accounts.settlerCollateral.owner == d.accounts.settlerContra.owner == SettlerPda
    requires amount > 0 ==> Transfer(s, SettlerPda, from, to, amount, amount).Ok?
    ensures amount == 0 ==> Tracked(s, s, d.accounts.settlerCollateral, d.accounts.settlerContra)
    ensures Transfer(s, SettlerPda, from, to, amount, amount).Ok? ==>
      var t := Transfer(s, SettlerPda, from, to, amount, amount).value;
      && t == s.(balances := t.balances) && Tracked(s, t, d.accounts.settlerCollateral, d.accounts.settlerContra)
      && forall x :: t.Funds(x) == s.Funds(x) - (if x == from then amount else 0) + (if x == to then amount else 0)
  {
    hide Transfer, Tracked;
    var a, b := d.accounts.settlerCollateral, d.accounts.settlerContra;
    TrackedSelf(s, a, b);
    if Transfer(s, SettlerPda, from, to, amount, amount).Ok? {
      TransferMoves(s, SettlerPda, from, to, amount, amount);
      TransferFunds(s, SettlerPda, from, to, amount, amount);
      TransferTracked(s, SettlerPda, from, to, amount, amount, a, b);
    }
  }

  lemma DeliverEffect(s: System, r: System, w: System, d: Delivery, o: Series, received: nat, contra: u64)
    requires d.accounts.settlerCollateral.owner == d.accounts.settlerContra.owner == SettlerPda
    requires d.accounts.userContra.owner.Wallet? && d.accounts.mmCollateral.owner.Wallet?
    requires received > 0 && received == r.Funds(d.accounts.settlerCollateral) - s.Funds(d.accounts.settlerCollateral)
    requires InvokeSwap(r, d) == Ok(w) && Deliver(s, r, w, d, o, received, contra).Ok?
    ensures Settlement(s, r, Deliver(s, r, w, d, o, received, contra).value, d, o, contra)
    ensures Deliver(s, r, w, d, o, received, contra).value.log == r.log
  {
    hide Deliver, Travel, Tracked;
    TravelMoves(r, d, d.route);
    DeliverChecks(s, r, w, d, o, received, contra);
    DeliverMoves(s, r, w, d, o, received, contra);
    TrackedTrans(r, w, Deliver(s, r, w, d, o, received, contra).value, d.accounts.settlerCollateral, d.accounts.settlerContra);
  }

  lemma RedeemLegEffect(s: System, d: Delivery)
    requires RedeemLeg(s, d).Ok? && PurseOf(d.accounts.settlerOtoken) == CustodyPurse(d.custody.otoken)
    ensures Redeemed(s, RedeemLeg(s, d).value, d)
    ensures d.custody.otoken in s.series && PurseOf(d.accounts.settlerCollateral) == Purse(SettlerPda, s.series[d.custody.otoken].collateralMint)
  {
    hide Controller.Redeem, GetPayout;
    var c, a := d.custody, d.accounts;
    var mm := s.attributions[d.vault];
    var debited := s.(custody := s.custody[c := s.custody[c] - d.amount],
                      attributions := s.attributions[d.vault := mm.(remaining := mm.remaining - d.amount)]);
    RedeemMoves(debited, SettlerPda, c.otoken, a.settlerOtoken, a.settlerCollateral, a.pool, d.amount, d.credited);
  }

  /** The same, account by account. */
  lemma RedeemLegFunds(s: System, d: Delivery)
    requires RedeemLeg(s, d).Ok?
    ensures d.custody.otoken in s.series && s.series[d.custody.otoken].Payout(d.amount).Ok?
    ensures PurseOf(d.accounts.pool) == PoolPurse(s.series[d.custody.otoken].collateralMint)
    ensures var r, a, payout := RedeemLeg(s, d).value, d.accounts, s.series[d.custody.otoken].Payout(d.amount).value;
            forall x :: r.Funds(x) == s.Funds(x) - (if x == a.settlerOtoken then d.amount else 0) - (if x == a.pool then payout else 0)
                                      + (if x == a.settlerCollateral && payout > 0 then d.credited else 0)
  {
    hide Controller.Redeem, GetPayout;
    var c, a := d.custody, d.accounts;
    var mm := s.attributions[d.vault];
    var debited := s.(custody := s.custody[c := s.custody[c] - d.amount],
                      attributions := s.attributions[d.vault := mm.(remaining := mm.remaining - d.amount)]);
    RedeemFunds(debited, SettlerPda, c.otoken, a.settlerOtoken, a.settlerCollateral, a.pool, d.amount, d.credited);
    RedeemPool(debited, SettlerPda, c.otoken, a.settlerOtoken, a.settlerCollateral, a.pool, d.amount, d.credited);
  }

  lemma CheckedDelivery(s: System, d: Delivery)
    requires CheckDeliveryAccounts(s, d).Pass?
    ensures d.custody in s.custody && d.custody.otoken in s.series && d.vault in s.vaults && d.vault in s.attributions
    ensures PurseOf(d.accounts.settlerOtoken) == CustodyPurse(d.custody.otoken)
    ensures PurseOf(d.accounts.settlerCollateral) == CustodyPurse(s.series[d.custody.otoken].collateralMint)
    ensures PurseOf(d.accounts.settlerContra) == CustodyPurse(d.contraMint)
    ensures s.vaults[d.vault].otoken == d.custody.otoken && s.vaults[d.vault].beneficiary == Wallet(d.user)
    ensures s.attributions[d.vault].maker == d.custody.maker && s.attributions[d.vault].otoken == d.custody.otoken
    ensures PurseOf(d.accounts.userContra) == Purse(Wallet(d.user), d.contraMint)
    ensures d.accounts.mmCollateral.owner == Wallet(d.custody.maker)
  {
  }

  /** What is delivered and what is left over: of a put the underlying and
      collateral, of a call the strike asset and more of it, each to an account of
      the user and of the maker. */
  ghost predicate RightAssets(d: Delivery, o: Series) {
    var a := d.accounts;
    && a.userContra.owner == Wallet(d.user) && a.userContra.mint == (if o.isPut then o.underlying else o.strikeAsset)
    && a.mmCollateral.owner == Wallet(d.custody.maker) && a.mmCollateral.mint == (if o.isPut then o.collateralMint else o.strikeAsset)
    && a.settlerCollateral.owner == a.settlerContra.owner == SettlerPda
    && a.settlerCollateral.mint == o.collateralMint && a.settlerContra.mint == a.userContra.mint
  }

  /** Delivery, for every outcome of the swap that passes the checks: the settler
      ends with its collateral and contra accounts at their starting balances; a
      put gives the user at least the contra amount and the maker the payout less
      the collateral used; a call gives the user exactly the contra amount and
      the maker the rest of the output. */
  lemma DeliveryLeavesNoResidue(s: System, d: Delivery)
    requires PhysicalRedeem(s, d).Ok?
    ensures RedeemLeg(s, d).Ok? && Redeemed(s, RedeemLeg(s, d).value, d)
    ensures var t, r, o := PhysicalRedeem(s, d).value, RedeemLeg(s, d).value, s.series[d.custody.otoken];
            var contra := ComputeContraAmount(d.amount, o.strike, o.isPut, d.contraDecimals);
            && InvokeSwap(r, d).Ok? && RightAssets(d, o)
            && CheckDeliveryAccounts(s, d).Pass? && ValidateItm(o, s.now).Pass?
            && t.log == Then(r.log, PhysicalDelivery(d.vault, d.amount))
            && contra.Ok? && Settlement(s, r, t.(log := r.log), d, o, contra.value)
  {
    hide Controller.Redeem, Deliver, InvokeSwap, Settlement, Redeemed, ComputeContraAmount, GetPayout, CheckDeliveryAccounts;
    CheckedDelivery(s, d);
    RedeemLegEffect(s, d);
    var r, o := RedeemLeg(s, d).value, s.series[d.custody.otoken];
    var contra := ComputeContraAmount(d.amount, o.strike, o.isPut, d.contraDecimals).value;
    var received := r.Funds(d.accounts.settlerCollateral) - s.Funds(d.accounts.settlerCollateral);
    var w := InvokeSwap(r, d).value;
    DeliverEffect(s, r, w, d, o, received, contra);
    var delivered := Deliver(s, r, w, d, o, received, contra).value;
    assert PhysicalRedeem(s, d).value.(log := r.log) == delivered;
  }

  // ---------------------------------------------------------------- ledgers

  /** What a delivery changes in the ledgers and in the settler's purses. */
  ghost predicate Delivered(s: System, t: System, d: Delivery) {
    var c, k := d.custody, d.vault;
    && c in s.custody && 0 < d.amount <= s.custody[c] && d.amount <= s.Supply(c.otoken)
    && k in s.attributions && d.amount <= s.attributions[k].remaining
    && s.attributions[k].maker == c.maker && s.attributions[k].otoken == c.otoken
    && c.otoken in s.series && RightAssets(d, s.series[c.otoken]) && s.series[c.otoken].price > 0 && s.series[c.otoken].Payout(d.amount).Ok?
    && t == s.(custody := s.custody[c := s.custody[c] - d.amount],
               attributions := s.attributions[k := s.attributions[k].(remaining := s.attributions[k].remaining - d.amount)],
               balances := t.balances, supply := s.supply[c.otoken := s.Supply(c.otoken) - d.amount], log := t.log)
    && t.log == Then(Then(s.log, Event.Redeemed(c.otoken, d.amount, s.series[c.otoken].Payout(d.amount).value)),
                     PhysicalDelivery(k, d.amount))
    && (forall mint :: t.Balance(CustodyPurse(mint)) == s.Balance(CustodyPurse(mint)) - (if mint == c.otoken then d.amount else 0))
    && (forall mint :: t.Balance(PoolPurse(mint)) == s.Balance(PoolPurse(mint))
                       - (if mint == s.series[c.otoken].collateralMint then s.series[c.otoken].Payout(d.amount).value else 0))
  }

  /** The settler's purses after the redemption, given that its two accounts are
      back where they started. */
  lemma BackWhereStarted(s: System, r: System, t: System, a: Account, b: Account, x: Account, arrived: nat, amount: nat)
    requires a.owner == b.owner == x.owner == SettlerPda && a.mint != x.mint && b.mint != x.mint
    requires Tracked(r, t, a, b) && t.Funds(a) == s.Funds(a) && t.Funds(b) == s.Funds(b)
    requires r.Funds(a) == s.Funds(a) + arrived && (b != a ==> r.Funds(b) == s.Funds(b))
    requires forall mint :: r.Balance(CustodyPurse(mint)) == s.Balance(CustodyPurse(mint)) - (if mint == x.mint then amount else 0)
                                                             + (if mint == a.mint then arrived else 0)
    ensures forall mint :: t.Balance(CustodyPurse(mint)) == s.Balance(CustodyPurse(mint)) - (if mint == x.mint then amount else 0)
    ensures forall mint :: t.Balance(PoolPurse(mint)) == r.Balance(PoolPurse(mint))
  {
  }

  lemma PhysicalRedeemEffect(s: System, d: Delivery)
    requires PhysicalRedeem(s, d).Ok?
    requires d.custody.otoken in s.series ==> SeriesOk(s, d.custody.otoken)
    ensures Delivered(s, PhysicalRedeem(s, d).value, d)
  {
    hide PhysicalRedeem, RedeemLeg, InvokeSwap, AfterRoute, CheckDeliveryAccounts, ComputeContraAmount, GetPayout, Tracked;
    DeliveryLeavesNoResidue(s, d);
    CheckedDelivery(s, d);
    RedeemLegFunds(s, d);
    var t, r, a := PhysicalRedeem(s, d).value, RedeemLeg(s, d).value, d.accounts;
    var payout := s.series[d.custody.otoken].Payout(d.amount).value;
    BackWhereStarted(s, r, t.(log := r.log), a.settlerCollateral, a.settlerContra, a.settlerOtoken,
                     if payout > 0 then d.credited else 0, d.amount);
    SameBalances(t.(log := r.log), t);
  }

  lemma DeliveryTrail(s: System, t: System, d: Delivery, k: VaultKey)
    requires Delivered(s, t, d)
    ensures var r := TrailOf(s.log, k);
            TrailOf(t.log, k) == if k == d.vault then r.(delivered := r.delivered + d.amount) else r
  {
    hide GetPayout;
    assert TrailOf(t.log.before, k) == TrailOf(s.log, k);
  }

  lemma DeliveryAttributions(s: System, t: System, d: Delivery)
    requires AttributionsOk(s) && Delivered(s, t, d)
    ensures AttributionsOk(t)
  {
    hide GetPayout, TrailOf;
    forall k: VaultKey ensures k != d.vault ==> TrailOf(t.log, k) == TrailOf(s.log, k) {
      DeliveryTrail(s, t, d, k);
    }
    DeliveryTrail(s, t, d, d.vault);
    assert Attributed(s.vaults[d.vault], s.attributions[d.vault], s.series, TrailOf(s.log, d.vault));
  }

  lemma DeliveryDrift(s: System, t: System, d: Delivery, c: CustodyKey)
    requires DriftOk(s, c) && Delivered(s, t, d)
    ensures DriftOk(t, c)
  {
    hide GetPayout;
    var x := if c == d.custody then t.attributions[d.vault].remaining else 0;
    assert RemainingMap(t, c) == RemainingMap(s, c)[d.vault := x];
    SumUpdate(RemainingMap(s, c), d.vault, x);
    assert Total(t.log, RedeemedBy(c)) == Total(t.log.before, RedeemedBy(c)) == Total(s.log, RedeemedBy(c));
  }

  lemma DeliveryKeeps(s: System, t: System, d: Delivery)
    requires SettlerInv(s) && Delivered(s, t, d)
    ensures SettlerInv(t)
  {
    hide GetPayout, AttributionsOk, DriftOk, Backed, QuoteOk, FillsWritten;
    DeliveryAttributions(s, t, d);
    forall c ensures DriftOk(t, c) { DeliveryDrift(s, t, d, c); }
    forall mint ensures Backed(t, mint) {
      assert Total(t.log, GiftsTo(CustodyPurse(mint))) == Total(t.log.before, GiftsTo(CustodyPurse(mint)));
      DebitBacked(s, t, d.custody, d.amount, mint);
    }
    forall maker ensures FillsWritten(t, maker) { SpentFills(s, t, maker); }
    forall q ensures QuoteOk(t, q) { SpentQuotes(s, t, q); }
  }

  // ---------------------------------------------------------------- emergency exit

  /** What a settler-route emergency withdrawal changes, between the burn and the
      release of the collateral. */
  ghost predicate Burned(s: System, t: System, k: VaultKey) {
    && k in s.vaults && k.owner == SettlerPda && k in s.attributions
    && var mm := s.attributions[k];
       var c := CustodyKey(mm.maker, mm.otoken);
    && c in s.custody && BurnAmount(s, k) <= s.Supply(mm.otoken)
    && t == s.(custody := s.custody[c := s.custody[c] - BurnAmount(s, k)],
               attributions := s.attributions[k := mm.(remaining := 0)],
               balances := t.balances, supply := t.supply)
    && (forall o :: t.Supply(o) == s.Supply(o) - (if o == mm.otoken then BurnAmount(s, k) else 0))
    && (forall p :: t.Balance(p) == s.Balance(p) - (if p == CustodyPurse(mm.otoken) then BurnAmount(s, k) else 0))
  }

  /** The state after the burn and before the controller is called. */
  ghost function BurnLeg(s: System, k: VaultKey, from: Account): System
    requires k in s.attributions && CustodyKey(s.attributions[k].maker, s.attributions[k].otoken) in s.custody
    requires BurnAmount(s, k) > 0 ==> Burn(s, SettlerPda, from, BurnAmount(s, k)).Ok?
  {
    var mm := s.attributions[k];
    var c := CustodyKey(mm.maker, mm.otoken);
    var burned := if BurnAmount(s, k) > 0 then Burn(s, SettlerPda, from, BurnAmount(s, k)).value else s;
    burned.(custody := s.custody[c := s.custody[c] - BurnAmount(s, k)], attributions := s.attributions[k := mm.(remaining := 0)])
  }

  lemma BurnLegMoves(s: System, k: VaultKey, from: Account)
    requires k in s.vaults && k.owner == SettlerPda
    requires k in s.attributions && CustodyKey(s.attributions[k].maker, s.attributions[k].otoken) in s.custody
    requires PurseOf(from) == CustodyPurse(s.attributions[k].otoken)
    requires BurnAmount(s, k) > 0 ==> Burn(s, SettlerPda, from, BurnAmount(s, k)).Ok?
    ensures Burned(s, BurnLeg(s, k, from), k)
  {
    hide Burn;
    if BurnAmount(s, k) > 0 {
      BurnMoves(s, SettlerPda, from, BurnAmount(s, k));
      var burned := Burn(s, SettlerPda, from, BurnAmount(s, k)).value;
      assert forall p :: BurnLeg(s, k, from).Balance(p) == burned.Balance(p);
      assert forall o :: BurnLeg(s, k, from).Supply(o) == burned.Supply(o);
    }
  }

  lemma EmergencyWithdrawEffect(s: System, beneficiary: Key, k: VaultKey, maker: Key, otoken: Key, settlerOtoken: Account,
                                pool: Account, to: Account, credited: nat)
    requires EmergencyWithdraw(s, beneficiary, k, maker, otoken, settlerOtoken, pool, to, credited).Ok?
    ensures k in s.attributions && CustodyKey(s.attributions[k].maker, s.attributions[k].otoken) in s.custody
    ensures BurnAmount(s, k) > 0 ==> Burn(s, SettlerPda, settlerOtoken, BurnAmount(s, k)).Ok?
    ensures Burned(s, BurnLeg(s, k, settlerOtoken), k) && k in s.vaults && PurseOf(to) == Purse(Wallet(beneficiary), s.vaults[k].collateralMint)
    ensures EmergencyWithdraw(s, beneficiary, k, maker, otoken, settlerOtoken, pool, to, credited)
         == Controller.EmergencyWithdrawVault(BurnLeg(s, k, settlerOtoken), SettlerPda, k.id, pool, to, credited)
  {
    hide Burn, Controller.EmergencyWithdrawVault, Burned;
    assert PurseOf(to) == Purse(Wallet(beneficiary), s.vaults[k].collateralMint) by {
      ExitDestination(s, beneficiary, k, maker, otoken, settlerOtoken, pool, to, credited);
    }
    if BurnAmount(s, k) > 0 {
      BurnMoves(s, SettlerPda, settlerOtoken, BurnAmount(s, k));
    }
    BurnLegMoves(s, k, settlerOtoken);
  }

  lemma ExitDestination(s: System, beneficiary: Key, k: VaultKey, maker: Key, otoken: Key, settlerOtoken: Account,
                        pool: Account, to: Account, credited: nat)
    requires EmergencyWithdraw(s, beneficiary, k, maker, otoken, settlerOtoken, pool, to, credited).Ok?
    ensures k in s.vaults && PurseOf(to) == Purse(Wallet(beneficiary), s.vaults[k].collateralMint)
  {
  }

  /** The whole exit: burn, release, and the event. */
  ghost predicate Exited(s: System, t: System, k: VaultKey) {
    && k in s.vaults && !s.vaults[k].settled && k.owner == SettlerPda && k in s.attributions
    && var mm := s.attributions[k];
       var c := CustodyKey(mm.maker, mm.otoken);
    && c in s.custody
    && t.custody == s.custody[c := s.custody[c] - BurnAmount(s, k)]
    && t.attributions == s.attributions[k := mm.(remaining := 0)]
    && t.vaults == s.vaults[k := s.vaults[k].(settled := true)]
    && t.series == s.series && t.fills == s.fills && t.makers == s.makers && t.settler == s.settler
    && t.log.Then? && t.log.before == s.log && t.log.event.Withdrawn? && t.log.event.vault == k && t.log.event.to.owner.Wallet?
    && (forall mint :: t.Balance(CustodyPurse(mint)) == s.Balance(CustodyPurse(mint)) - (if mint == mm.otoken then BurnAmount(s, k) else 0))
  }

  lemma ReleaseMoves(s: System, k: VaultKey, pool: Account, to: Account, credited: nat)
    requires Controller.EmergencyWithdrawVault(s, SettlerPda, k.id, pool, to, credited).Ok?
    requires k.owner == SettlerPda && to.owner.Wallet?
    ensures var t := Controller.EmergencyWithdrawVault(s, SettlerPda, k.id, pool, to, credited).value;
            && k in s.vaults && !s.vaults[k].settled
            && t == s.(vaults := s.vaults[k := s.vaults[k].(settled := true)], balances := t.balances, log := t.log)
            && t.log == Then(s.log, Withdrawn(k, s.vaults[k].collateral, if s.vaults[k].collateral > 0 then credited else 0, PurseOf(to)))
            && (forall mint :: t.Balance(CustodyPurse(mint)) == s.Balance(CustodyPurse(mint)))
  {
    hide Controller.EmergencyWithdrawVault;
    EmergencyMoves(s, SettlerPda, k.id, pool, to, credited);
  }

  lemma ExitEffect(s: System, beneficiary: Key, k: VaultKey, maker: Key, otoken: Key, settlerOtoken: Account,
                   pool: Account, to: Account, credited: nat)
    requires EmergencyWithdraw(s, beneficiary, k, maker, otoken, settlerOtoken, pool, to, credited).Ok?
    ensures Exited(s, EmergencyWithdraw(s, beneficiary, k, maker, otoken, settlerOtoken, pool, to, credited).value, k)
  {
    hide EmergencyWithdraw, Controller.EmergencyWithdrawVault, Burn, BurnLeg, BurnAmount;
    EmergencyWithdrawEffect(s, beneficiary, k, maker, otoken, settlerOtoken, pool, to, credited);
    ReleaseMoves(BurnLeg(s, k, settlerOtoken), k, pool, to, credited);
  }

  lemma ExitAttributions(s: System, t: System, k: VaultKey)
    requires AttributionsOk(s) && Exited(s, t, k)
    ensures AttributionsOk(t)
  {
    hide BurnAmount, TrailOf;
    forall j: VaultKey ensures TrailOf(t.log, j) == ExitTrail(TrailOf(s.log, j), j == k) {
      ExitTrails(s, t, k, j);
    }
    assert Attributed(s.vaults[k], s.attributions[k], s.series, TrailOf(s.log, k));
  }

  ghost function ExitTrail(r: Trail, here: bool): Trail {
    if here then r.(rescues := r.rescues + 1) else r
  }

  lemma ExitTrails(s: System, t: System, k: VaultKey, j: VaultKey)
    requires Exited(s, t, k)
    ensures TrailOf(t.log, j) == ExitTrail(TrailOf(s.log, j), j == k)
  {
    hide BurnAmount;
  }

  lemma ExitDrift(s: System, t: System, k: VaultKey, c: CustodyKey)
    requires DriftOk(s, c) && Exited(s, t, k)
    ensures DriftOk(t, c)
  {
    var mm := s.attributions[k];
    assert RemainingMap(t, c) == RemainingMap(s, c)[k := 0];
    SumUpdate(RemainingMap(s, c), k, 0);
    if c == CustodyKey(mm.maker, mm.otoken) {
      RemainingAtLeast(s, c, k);
    }
  }

  lemma RemainingAtLeast(s: System, c: CustodyKey, k: VaultKey)
    requires k in s.attributions
    ensures RemainingMap(s, c)[k] <= MapSum(RemainingMap(s, c))
  {
    SumAtLeast(RemainingMap(s, c), k);
  }

  lemma ExitKeeps(s: System, t: System, k: VaultKey)
    requires SettlerInv(s) && Exited(s, t, k)
    ensures SettlerInv(t)
  {
    hide AttributionsOk, DriftOk, Backed, QuoteOk, FillsWritten;
    ExitAttributions(s, t, k);
    forall c ensures DriftOk(t, c) { ExitDrift(s, t, k, c); }
    forall mint ensures Backed(t, mint) {
      DebitBacked(s, t, CustodyKey(s.attributions[k].maker, s.attributions[k].otoken), BurnAmount(s, k), mint);
    }
    forall maker ensures FillsWritten(t, maker) { ExitFills(s, t, k, maker); }
    forall q ensures QuoteOk(t, q) { ExitQuotes(s, t, k, q); }
  }

  lemma ExitFills(s: System, t: System, k: VaultKey, maker: Key)
    requires FillsWritten(s, maker) && Exited(s, t, k)
    ensures FillsWritten(t, maker)
  {
    assert FilledMap(t, maker) == FilledMap(s, maker);
    assert WrittenMap(t, maker) == WrittenMap(s, maker);
  }

  lemma ExitQuotes(s: System, t: System, k: VaultKey, q: QuoteKey)
    requires QuoteOk(s, q) && Exited(s, t, k)
    ensures QuoteOk(t, q)
  {
  }
}
