/** The settler's ledgers over the same oTokens, and how far they agree. */
module SettlerBooks {
  import opened Wrappers
  import opened Ints
  import opened Payoff
  import opened Sums
  import opened Model
  import opened Tokens
  import opened Settler
  import Controller

  // ---------------------------------------------------------------- attributions

  /** What the log says about one attributed vault. */
  datatype Trail = Trail(deposits: nat, mints: nat, delivered: nat, rescues: nat)

  ghost function TrailOf(log: Log, k: VaultKey): Trail {
    Trail(Total(log, DepositsOf(k)), Total(log, MintsOf(k)), Total(log, DeliveredFrom(k)), Total(log, RescuesOf(k)))
  }

  ghost predicate Priced(series: map<Key, Series>, otoken: Key) {
    otoken in series && series[otoken].price > 0
  }

  /** A vault the settler opened: one deposit, one mint, all of its short
      attributed to one maker, less what was delivered; nothing after a rescue,
      and no delivery before the expiry price. */
  ghost predicate Attributed(v: Vault, mm: VaultMM, series: map<Key, Series>, r: Trail) {
    && mm.otoken == v.otoken && v.otoken != 0 && v.short > 0
    && v.beneficiary.Wallet?
    && r.deposits == 1 && r.mints == 1
    && r.delivered <= v.short
    && mm.remaining == (if r.rescues > 0 then 0 else v.short - r.delivered)
    && (r.delivered > 0 ==> Priced(series, v.otoken))
  }

  /** Exactly the settler's vaults are attributed, each to a maker with custody. */
  ghost predicate AttributionsOk(s: System) {
    && (forall k | k in s.attributions ::
          k in s.vaults && k.owner == SettlerPda
          && CustodyKey(s.attributions[k].maker, s.attributions[k].otoken) in s.custody
          && Attributed(s.vaults[k], s.attributions[k], s.series, TrailOf(s.log, k)))
    && (forall k: VaultKey | k in s.vaults && k.owner == SettlerPda :: k in s.attributions)
    && (forall k: VaultKey | k !in s.vaults && k.owner == SettlerPda :: TrailOf(s.log, k) == Trail(0, 0, 0, 0))
  }

  // ---------------------------------------------------------------- custody

  /** Undelivered oTokens of each vault attributed to one maker and series. */
  ghost function RemainingMap(s: System, c: CustodyKey): map<VaultKey, int> {
    map k | k in s.attributions ::
      if s.attributions[k].maker == c.maker && s.attributions[k].otoken == c.otoken then s.attributions[k].remaining else 0
  }

  /** The custody ledger never exceeds the maker's undelivered oTokens, and falls
      behind them by no more than the maker redeemed for cash. */
  ghost predicate DriftOk(s: System, c: CustodyKey) {
    && CustodyOf(s, c) <= MapSum(RemainingMap(s, c)) <= CustodyOf(s, c) + Total(s.log, RedeemedBy(c))
    && (Total(s.log, RedeemedBy(c)) > 0 ==> Priced(s.series, c.otoken))
  }

  ghost function CustodyMap(s: System, otoken: Key): map<CustodyKey, int> {
    map c | c in s.custody :: if c.otoken == otoken then s.custody[c] else 0
  }

  /** The settler's own tokens of every mint are the makers' custody plus gifts. */
  ghost predicate Backed(s: System, mint: Key) {
    s.Balance(CustodyPurse(mint)) == MapSum(CustodyMap(s, mint)) + Total(s.log, GiftsTo(CustodyPurse(mint)))
  }

  // ---------------------------------------------------------------- fills

  ghost function FilledMap(s: System, maker: Key): map<QuoteKey, int> {
    map q | q in s.fills :: if q.maker == maker then s.fills[q].filled else 0
  }

  ghost function WrittenMap(s: System, maker: Key): map<VaultKey, int> {
    map k | k in s.attributions :: if s.attributions[k].maker == maker && k in s.vaults then s.vaults[k].short else 0
  }

  /** Everything a maker's quotes were filled for was written in its vaults. */
  ghost predicate FillsWritten(s: System, maker: Key) {
    MapSum(FilledMap(s, maker)) == MapSum(WrittenMap(s, maker))
  }

  /** The largest limit a quote was ever executed with. */
  ghost function Limit(log: Log, q: QuoteKey): nat {
    match log
    case Genesis => 0
    case Then(before, e) =>
      if e.OrderExecuted? && e.quote == q && e.maxAmount > Limit(before, q) then e.maxAmount else Limit(before, q)
  }

  ghost predicate QuoteOk(s: System, q: QuoteKey) {
    && FillOf(s, q).filled == Total(s.log, FilledUnder(q)) <= Limit(s.log, q)
    && (q in s.fills ==> q.maker in s.makers && q.nonce <= s.makers[q.maker].nonce)
  }

  // ---------------------------------------------------------------- all of it

  ghost predicate ConfigOk(c: SettlerConfig) {
    c.feeBps <= MAX_FEE_BPS && c.escapeDelay >= MIN_ESCAPE_DELAY
  }

  ghost predicate SettlerInv(s: System) {
    && ConfigOk(s.settler)
    && AttributionsOk(s)
    && (forall c :: DriftOk(s, c))
    && (forall mint :: Backed(s, mint))
    && (forall maker :: FillsWritten(s, maker))
    && (forall q :: QuoteOk(s, q))
  }

  // ---------------------------------------------------------------- foreign steps

  /** Events the settler's ledgers do not depend on, gifts apart. */
  ghost predicate Foreign(e: Event) {
    || e.VaultOpened? || e.Settled? || e.Redeemed? || e.OutsideCredit? || e.OutsideBurn?
    || ((e.CollateralDeposited? || e.OTokenMinted? || e.Withdrawn?) && e.vault.owner != SettlerPda)
  }

  ghost function LastGift(s: System, t: System, p: Purse): nat {
    if t.log.Then? && t.log != s.log then Amount(t.log.event, GiftsTo(p)) else 0
  }

  /** The ledgers are as they were; prices may have been set, vaults settled, and
      one foreign event logged. */
  ghost predicate ForeignStep(s: System, t: System) {
    && t.attributions == s.attributions && t.custody == s.custody && t.fills == s.fills && t.makers == s.makers
    && ConfigOk(t.settler)
    && (t.log == s.log || (t.log.Then? && t.log.before == s.log && Foreign(t.log.event)))
    && (forall o | Priced(s.series, o) :: Priced(t.series, o))
    && (forall k: VaultKey | k in s.vaults :: k in t.vaults && (k.owner == SettlerPda ==> t.vaults[k] == s.vaults[k].(settled := t.vaults[k].settled)))
    && (forall k: VaultKey | k in t.vaults && k.owner == SettlerPda :: k in s.vaults)
    && (forall mint :: t.Balance(CustodyPurse(mint)) == s.Balance(CustodyPurse(mint)) + LastGift(s, t, CustodyPurse(mint)))
  }

  lemma ForeignAttributions(s: System, t: System)
    requires AttributionsOk(s) && ForeignStep(s, t)
    ensures AttributionsOk(t)
  {
    forall k: VaultKey | k.owner == SettlerPda ensures TrailOf(t.log, k) == TrailOf(s.log, k) {
    }
  }

  lemma ForeignDrift(s: System, t: System, c: CustodyKey)
    requires DriftOk(s, c) && ForeignStep(s, t)
    ensures DriftOk(t, c)
  {
    assert RemainingMap(t, c) == RemainingMap(s, c);
  }

  lemma ForeignBacked(s: System, t: System, mint: Key)
    requires Backed(s, mint) && ForeignStep(s, t)
    ensures Backed(t, mint)
  {
    assert CustodyMap(t, mint) == CustodyMap(s, mint);
  }

  lemma ForeignFills(s: System, t: System, maker: Key)
    requires AttributionsOk(s) && FillsWritten(s, maker) && ForeignStep(s, t)
    ensures FillsWritten(t, maker)
  {
    hide Total, Attributed, MapSum, TrailOf, Priced, LastGift;
    assert FilledMap(t, maker) == FilledMap(s, maker);
    assert WrittenMap(t, maker) == WrittenMap(s, maker);
  }

  lemma ForeignQuote(s: System, t: System, q: QuoteKey)
    requires QuoteOk(s, q) && ForeignStep(s, t)
    ensures QuoteOk(t, q)
  {
  }

  lemma ForeignKeeps(s: System, t: System)
    requires SettlerInv(s) && ForeignStep(s, t)
    ensures SettlerInv(t)
  {
    ForeignAttributions(s, t);
    forall c ensures DriftOk(t, c) { ForeignDrift(s, t, c); }
    forall mint ensures Backed(t, mint) { ForeignBacked(s, t, mint); }
    forall maker ensures FillsWritten(t, maker) { ForeignFills(s, t, maker); }
    forall q ensures QuoteOk(t, q) { ForeignQuote(s, t, q); }
  }
}
