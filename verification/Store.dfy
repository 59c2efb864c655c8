/** The accounts as the programs see them: fields updated in place. */
module Store {
  import opened Wrappers
  import opened Ints
  import opened Model
  import Tokens

  /** A handler did what the record-to-record function says: the same accounts on
      success, the same error on failure. What a failed handler leaves behind is
      rolled back by its caller. */
  ghost predicate Matches(expected: Result<System>, r: Result<()>, view: System) {
    match expected
    case Ok(t) => r.Ok? && view == t
    case Err(e) => r == Err(e)
  }

  class Accounts {
    var now: i64
    var balances: Ledger
    var supply: map<Key, nat>
    var config: ControllerConfig
    var counters: map<Holder, nat>
    var vaults: map<VaultKey, Vault>
    var series: map<Key, Series>
    var oracle: OracleConfig
    var feeds: map<Key, Feed>
    var prices: map<PriceKey, u64>
    var settler: SettlerConfig
    var makers: map<Key, MakerState>
    var fills: map<QuoteKey, QuoteFill>
    var custody: map<CustodyKey, u64>
    var attributions: map<VaultKey, VaultMM>
    var log: Log

    /** All accounts at once. */
    function View(): System
      reads this
    {
      System(now, balances, supply, config, counters, vaults, series, oracle, feeds, prices, settler, makers, fills,
             custody, attributions, log)
    }

    constructor (s: System)
      ensures View() == s
    {
      now, balances, supply, config := s.now, s.balances, s.supply, s.config;
      counters, vaults, series := s.counters, s.vaults, s.series;
      oracle, feeds, prices := s.oracle, s.feeds, s.prices;
      settler, makers, fills := s.settler, s.makers, s.fills;
      custody, attributions, log := s.custody, s.attributions, s.log;
    }

    method RestoreTokens(s: System)
      modifies this`now, this`balances, this`supply, this`log
      ensures now == s.now && balances == s.balances && supply == s.supply && log == s.log
    {
      now := s.now;
      balances := s.balances;
      supply := s.supply;
      log := s.log;
    }

    method RestoreController(s: System)
      modifies this`config, this`counters, this`vaults, this`series
      ensures config == s.config && counters == s.counters && vaults == s.vaults && series == s.series
    {
      config := s.config;
      counters := s.counters;
      vaults := s.vaults;
      series := s.series;
    }

    method RestoreOracle(s: System)
      modifies this`oracle, this`feeds, this`prices
      ensures oracle == s.oracle && feeds == s.feeds && prices == s.prices
    {
      oracle := s.oracle;
      feeds := s.feeds;
      prices := s.prices;
    }

    method RestoreSettler(s: System)
      modifies this`settler, this`makers, this`fills, this`custody, this`attributions
      ensures settler == s.settler && makers == s.makers && fills == s.fills && custody == s.custody && attributions == s.attributions
    {
      settler := s.settler;
      makers := s.makers;
      fills := s.fills;
      custody := s.custody;
      attributions := s.attributions;
    }

    /** Rolls everything back. */
    method Restore(s: System)
      modifies this
      ensures View() == s
    {
      RestoreTokens(s);
      RestoreController(s);
      RestoreOracle(s);
      RestoreSettler(s);
    }

    function Funds(a: Account): (b: nat)
      reads this
      ensures b == View().Funds(a)
    {
      balances.In(a)
    }

    function Supply(mint: Key): (n: nat)
      reads this
      ensures n == View().Supply(mint)
    {
      if mint in supply then supply[mint] else 0
    }

    method Transfer(authority: Holder, from: Account, to: Account, amount: nat, credited: nat) returns (r: Result<()>)
      modifies this`balances
      ensures Matches(Tokens.Transfer(old(View()), authority, from, to, amount, credited), r, View())
    {
      var available := Funds(from);
      :- Need(from.mint == to.mint, TokenMintMismatch);
      :- Need(Tokens.MaySpend(authority, from.owner), TokenOwnerMismatch);
      :- Need(amount <= available, InsufficientFunds);
      :- Need(amount <= balances.Of(PurseOf(from)), InsufficientFunds);
      :- Need(credited <= amount, Environment);
      balances := balances.Debit(from, amount);
      balances := balances.Credit(to, credited);
      return Ok(());
    }

    method MintTo(mint: Key, to: Account, amount: nat) returns (r: Result<()>)
      modifies this`balances, this`supply
      ensures Matches(Tokens.MintTo(old(View()), mint, to, amount), r, View())
    {
      var minted := Supply(mint) + amount;
      :- Need(to.mint == mint, TokenMintMismatch);
      :- Need(minted <= U64_MAX, SupplyOverflow);
      supply := supply[mint := minted];
      balances := balances.Credit(to, amount);
      return Ok(());
    }

    method Burn(authority: Holder, from: Account, amount: nat) returns (r: Result<()>)
      modifies this`balances, this`supply
      ensures Matches(Tokens.Burn(old(View()), authority, from, amount), r, View())
    {
      var available, total := Funds(from), Supply(from.mint);
      :- Need(Tokens.MaySpend(authority, from.owner), TokenOwnerMismatch);
      :- Need(amount <= available, InsufficientFunds);
      :- Need(amount <= balances.Of(PurseOf(from)), InsufficientFunds);
      :- Need(amount <= total, InsufficientFunds);
      supply := supply[from.mint := total - amount];
      balances := balances.Debit(from, amount);
      return Ok(());
    }
  }
}
