/** The accounts the three programs share, as one record, and the event log. */
module Model {
  import opened Wrappers
  import opened Ints
  import opened Bytes
  import opened Payoff

  /** A 32-byte address read as a number; zero is the default address. */
  type Key = k: int | 0 <= k <
    0x1_0000_0000_0000_0000_0000_0000_0000_0000_0000_0000_0000_0000_0000_0000_0000_0000

  /** Who can own a token account: a wallet, the pool authority derived from a
      collateral mint, or the settler's configuration address. */
  datatype Holder = Wallet(key: Key) | PoolAuthority(mint: Key) | SettlerPda

  const NOBODY: Holder := Wallet(0)

  /** One token account: its owner, its mint, and which of theirs it is. */
  datatype Account = Account(owner: Holder, mint: Key, index: nat)

  /** All token accounts of one owner and one mint, taken together. */
  datatype Purse = Purse(owner: Holder, mint: Key)

  function PurseOf(a: Account): Purse { Purse(a.owner, a.mint) }

  function PoolPurse(mint: Key): Purse { Purse(PoolAuthority(mint), mint) }

  function CustodyPurse(otoken: Key): Purse { Purse(SettlerPda, otoken) }

  // One account of each.

  function PoolAccount(mint: Key, index: nat): Account { Account(PoolAuthority(mint), mint, index) }

  function CustodyAccount(otoken: Key, index: nat): Account { Account(SettlerPda, otoken, index) }

  // ---------------------------------------------------------------- controller

  datatype ControllerConfig =
    ControllerConfig(admin: Key, partialPauser: Key, partiallyPaused: bool, fullyPaused: bool)

  datatype VaultKey = VaultKey(owner: Holder, id: nat)

  datatype Vault =
    Vault(collateralMint: Key, collateral: u64, otoken: Key, short: u64, settled: bool, beneficiary: Holder)

  datatype Series =
    Series(underlying: Key, strikeAsset: Key, collateralMint: Key, strike: u64, expiry: i64,
           isPut: bool, decimals: u8, price: u64)
  {
    function Required(amount: u64): Result<u64> {
      GetRequiredCollateral(strike, isPut, decimals, amount)
    }

    function Payout(amount: u64): Result<u64> {
      GetPayout(strike, price, isPut, decimals, amount)
    }

    function Worth(amount: nat): nat {
      Payoff.Worth(strike, isPut, decimals, amount)
    }

    /** Puts on collateral with more than 16 decimals cannot be priced. */
    predicate Priceable() { decimals <= 18 && !(isPut && decimals > 16) }

    /** Rounding never loses anything. */
    predicate Exact() { Den(isPut, decimals) == 1 }
  }

  // ---------------------------------------------------------------- oracle

  datatype OracleConfig =
    OracleConfig(admin: Key, pendingAdmin: Key, operator: Key, receiver: Key, maxStaleness: u64, maxConfidenceBps: u16, thresholdBps: u16)

  datatype Feed = Feed(feedId: seq<byte>, active: bool)

  datatype PriceKey = PriceKey(underlying: Key, expiry: i64)

  // ---------------------------------------------------------------- settler

  datatype SettlerConfig =
    SettlerConfig(owner: Key, operator: Key, treasury: Holder, feeBps: u16, paused: bool,
                  escapeDelay: i64, jupiter: Key)

  datatype MakerState = MakerState(nonce: u64, whitelisted: bool)

  datatype QuoteKey = QuoteKey(maker: Key, nonce: u64, id: u64)

  datatype QuoteFill = QuoteFill(filled: u64, cancelled: bool)

  datatype CustodyKey = CustodyKey(maker: Key, otoken: Key)

  datatype VaultMM = VaultMM(maker: Key, otoken: Key, remaining: u64)

  // ---------------------------------------------------------------- whole state

  /** What each token account holds, and the totals of each purse. */
  datatype Ledger = Ledger(accounts: map<Account, nat>, totals: map<Purse, nat>) {
    function In(a: Account): nat {
      if a in accounts then accounts[a] else 0
    }

    function Of(p: Purse): nat {
      if p in totals then totals[p] else 0
    }

    function Debit(a: Account, amount: nat): Ledger
      requires amount <= In(a) && amount <= Of(PurseOf(a))
    {
      Ledger(accounts[a := In(a) - amount], totals[PurseOf(a) := Of(PurseOf(a)) - amount])
    }

    function Credit(a: Account, amount: nat): Ledger {
      Ledger(accounts[a := In(a) + amount], totals[PurseOf(a) := Of(PurseOf(a)) + amount])
    }
  }

  const NOTHING: Ledger := Ledger(map[], map[])

  datatype System = System(
    now: i64,
    balances: Ledger,
    supply: map<Key, nat>,
    config: ControllerConfig,
    counters: map<Holder, nat>,
    vaults: map<VaultKey, Vault>,
    series: map<Key, Series>,
    oracle: OracleConfig,
    feeds: map<Key, Feed>,
    prices: map<PriceKey, u64>,
    settler: SettlerConfig,
    makers: map<Key, MakerState>,
    fills: map<QuoteKey, QuoteFill>,
    custody: map<CustodyKey, u64>,
    attributions: map<VaultKey, VaultMM>,
    log: Log)
  {
    /** What one token account holds. */
    function Funds(a: Account): nat { balances.In(a) }

    /** What all accounts of a purse hold together. */
    function Balance(p: Purse): nat { balances.Of(p) }

    function Supply(mint: Key): nat {
      if mint in supply then supply[mint] else 0
    }

    function Emit(e: Event): System {
      this.(log := Then(log, e))
    }
  }

  // ---------------------------------------------------------------- log

  /** What the programs report, plus token movements they did not cause. */
  datatype Event =
    | VaultOpened(vault: VaultKey)
    | CollateralDeposited(vault: VaultKey, amount: nat)
    | OTokenMinted(vault: VaultKey, otoken: Key, amount: nat, to: Purse)
    | Settled(vault: VaultKey, returned: nat, credited: nat, to: Purse)
    | Withdrawn(vault: VaultKey, returned: nat, credited: nat, to: Purse)
    | Redeemed(otoken: Key, amount: nat, payout: nat)
    | OrderExecuted(quote: QuoteKey, vault: VaultKey, amount: nat, maxAmount: nat, fee: nat, feeTo: Purse)
    | MMRedeemed(custody: CustodyKey, amount: nat)
    | PhysicalDelivery(vault: VaultKey, amount: nat)
    | OutsideCredit(to: Purse, amount: nat)
    | OutsideBurn(otoken: Key, amount: nat)

  /** Totals that can be read off the log. */
  datatype Query =
    | DepositedInto(vault: VaultKey)   // collateral units
    | DepositsOf(vault: VaultKey)      // how many
    | MintsOf(vault: VaultKey)         // how many
    | ReleasedFrom(vault: VaultKey)    // collateral units, settlement or emergency
    | ReleasesOf(vault: VaultKey)      // how many
    | RescuesOf(vault: VaultKey)       // how many emergency releases
    | DeliveredFrom(vault: VaultKey)   // oToken units
    | PaidFor(otoken: Key)             // collateral units
    | RedeemedOf(otoken: Key)          // oToken units
    | RedemptionsOf(otoken: Key)       // how many
    | MintedOf(otoken: Key)            // oToken units
    | BurnedOutside(otoken: Key)       // oToken units
    | FilledUnder(quote: QuoteKey)     // oToken units
    | RedeemedBy(custody: CustodyKey)  // oToken units
    | GiftsTo(purse: Purse)            // units credited outside the accounted flows

  function If(c: bool, x: nat): nat { if c then x else 0 }

  /** What one event adds to a total. */
  function Amount(e: Event, q: Query): nat {
    match q
    case DepositedInto(k) => if e.CollateralDeposited? && e.vault == k then e.amount else 0
    case DepositsOf(k) => If(e.CollateralDeposited? && e.vault == k, 1)
    case MintsOf(k) => If(e.OTokenMinted? && e.vault == k, 1)
    case ReleasedFrom(k) => if (e.Settled? || e.Withdrawn?) && e.vault == k then e.returned else 0
    case ReleasesOf(k) => If((e.Settled? || e.Withdrawn?) && e.vault == k, 1)
    case RescuesOf(k) => If(e.Withdrawn? && e.vault == k, 1)
    case DeliveredFrom(k) => if e.PhysicalDelivery? && e.vault == k then e.amount else 0
    case PaidFor(o) => if e.Redeemed? && e.otoken == o then e.payout else 0
    case RedeemedOf(o) => if e.Redeemed? && e.otoken == o then e.amount else 0
    case RedemptionsOf(o) => If(e.Redeemed? && e.otoken == o, 1)
    case MintedOf(o) => if e.OTokenMinted? && e.otoken == o then e.amount else 0
    case BurnedOutside(o) => if e.OutsideBurn? && e.otoken == o then e.amount else 0
    case FilledUnder(f) => if e.OrderExecuted? && e.quote == f then e.amount else 0
    case RedeemedBy(c) => if e.MMRedeemed? && e.custody == c then e.amount else 0
    case GiftsTo(p) =>
      match e
      case Settled(_, _, credited, to) => If(to == p, credited)
      case Withdrawn(_, _, credited, to) => If(to == p, credited)
      case OTokenMinted(vault, _, amount, to) => If(to == p && vault.owner != SettlerPda, amount)
      case OrderExecuted(_, _, _, _, fee, feeTo) => If(feeTo == p, fee)
      case OutsideCredit(to, amount) => If(to == p, amount)
      case _ => 0
  }

  datatype Log = Genesis | Then(before: Log, event: Event)

  function Total(log: Log, q: Query): nat {
    match log
    case Genesis => 0
    case Then(before, event) => Total(before, q) + Amount(event, q)
  }

  lemma LogGrows(log: Log, e: Event)
    ensures Then(log, e) != log
  {
    if log.Then? {
      LogGrows(log.before, log.event);
    }
  }

  lemma FourMore(log: Log, a: Event, b: Event, c: Event, d: Event, q: Query)
    ensures Total(Then(Then(Then(Then(log, a), b), c), d), q)
         == Total(log, q) + Amount(a, q) + Amount(b, q) + Amount(c, q) + Amount(d, q)
  {
    assert Total(Then(Then(log, a), b), q) == Total(log, q) + Amount(a, q) + Amount(b, q);
  }
}

/** The token program, on the record. */
module Tokens {
  import opened Wrappers
  import opened Ints
  import opened Model

  /** An owner spends its own accounts. A wallet may have delegated; the
      derived addresses never do. */
  predicate MaySpend(authority: Holder, owner: Holder) {
    owner == authority || owner.Wallet?
  }

  /** `transfer_checked`: the mint may withhold part of the credit. An account
      never holds more than its purse, so the second check never fails. */
  function Transfer(s: System, authority: Holder, from: Account, to: Account, amount: nat, credited: nat): Result<System> {
    var available := s.Funds(from);
    :- Need(from.mint == to.mint, TokenMintMismatch);
    :- Need(MaySpend(authority, from.owner), TokenOwnerMismatch);
    :- Need(amount <= available, InsufficientFunds);
    :- Need(amount <= s.Balance(PurseOf(from)), InsufficientFunds);
    :- Need(credited <= amount, Environment);
    Ok(s.(balances := s.balances.Debit(from, amount).Credit(to, credited)))
  }

  function MintTo(s: System, mint: Key, to: Account, amount: nat): Result<System> {
    var supply := s.Supply(mint);
    :- Need(to.mint == mint, TokenMintMismatch);
    :- Need(supply + amount <= U64_MAX, SupplyOverflow);
    Ok(s.(supply := s.supply[mint := supply + amount], balances := s.balances.Credit(to, amount)))
  }

  function Burn(s: System, authority: Holder, from: Account, amount: nat): Result<System> {
    var available, supply := s.Funds(from), s.Supply(from.mint);
    :- Need(MaySpend(authority, from.owner), TokenOwnerMismatch);
    :- Need(amount <= available, InsufficientFunds);
    :- Need(amount <= s.Balance(PurseOf(from)), InsufficientFunds);
    :- Need(amount <= supply, InsufficientFunds);
    Ok(s.(supply := s.supply[from.mint := supply - amount], balances := s.balances.Debit(from, amount)))
  }

  lemma TransferMoves(s: System, authority: Holder, from: Account, to: Account, amount: nat, credited: nat)
    requires Transfer(s, authority, from, to, amount, credited).Ok?
    ensures var t := Transfer(s, authority, from, to, amount, credited).value;
            && t == s.(balances := t.balances)
            && forall p :: t.Balance(p) == s.Balance(p) - (if p == PurseOf(from) then amount else 0) + (if p == PurseOf(to) then credited else 0)
  {
  }

  lemma MintToMoves(s: System, mint: Key, to: Account, amount: nat)
    requires MintTo(s, mint, to, amount).Ok?
    ensures var t := MintTo(s, mint, to, amount).value;
            && t == s.(supply := s.supply[mint := s.Supply(mint) + amount], balances := t.balances)
            && forall p :: t.Balance(p) == s.Balance(p) + (if p == PurseOf(to) then amount else 0)
  {
  }

  lemma BurnMoves(s: System, authority: Holder, from: Account, amount: nat)
    requires Burn(s, authority, from, amount).Ok?
    ensures var t := Burn(s, authority, from, amount).value;
            && amount <= s.Supply(from.mint)
            && t == s.(supply := s.supply[from.mint := s.Supply(from.mint) - amount], balances := t.balances)
            && forall p :: t.Balance(p) == s.Balance(p) - (if p == PurseOf(from) then amount else 0)
  {
  }

  // The same, account by account.

  lemma TransferFunds(s: System, authority: Holder, from: Account, to: Account, amount: nat, credited: nat)
    requires Transfer(s, authority, from, to, amount, credited).Ok?
    ensures var t := Transfer(s, authority, from, to, amount, credited).value;
            && credited <= amount && from.mint == to.mint
            && forall a :: t.Funds(a) == s.Funds(a) - (if a == from then amount else 0) + (if a == to then credited else 0)
  {
  }

  lemma BurnFunds(s: System, authority: Holder, from: Account, amount: nat)
    requires Burn(s, authority, from, amount).Ok?
    ensures var t := Burn(s, authority, from, amount).value;
            forall a :: t.Funds(a) == s.Funds(a) - (if a == from then amount else 0)
  {
  }
}
