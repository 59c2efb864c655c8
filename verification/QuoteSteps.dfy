/** The instructions that only move quotes, against the ledgers. */
module QuoteSteps {
  import opened Wrappers
  import opened Ints
  import opened Sums
  import opened Model
  import opened Settler
  import opened SettlerBooks

  /** Fills, makers and configuration may change, nothing else. */
  ghost predicate QuotesOnly(s: System, t: System) {
    t == s.(fills := t.fills, makers := t.makers, settler := t.settler)
  }

  /** Makers keep their record and their nonces only grow; fills keep their
      amounts and new ones start at nothing under a current nonce. */
  ghost predicate QuotesGrow(s: System, t: System) {
    && (forall m | m in s.makers :: m in t.makers && s.makers[m].nonce <= t.makers[m].nonce)
    && (forall q :: FillOf(t, q).filled == FillOf(s, q).filled)
    && (forall q | q in t.fills && q !in s.fills :: q.maker in t.makers && q.nonce <= t.makers[q.maker].nonce)
    && (forall q | q in s.fills :: q in t.fills)
  }

  lemma QuoteFills(s: System, t: System, maker: Key)
    requires FillsWritten(s, maker) && QuotesOnly(s, t) && QuotesGrow(s, t)
    ensures FillsWritten(t, maker)
  {
    forall q | q in t.fills
      ensures FilledMap(t, maker)[q] == if q in s.fills then FilledMap(s, maker)[q] else 0
    {
      assert FillOf(t, q).filled == FillOf(s, q).filled;
    }
    SumExtend(FilledMap(s, maker), FilledMap(t, maker));
    assert WrittenMap(t, maker) == WrittenMap(s, maker);
  }

  /** Terms that are zero do not change a sum. */
  lemma {:induction false} SumExtend<K(!new)>(a: map<K, int>, b: map<K, int>)
    requires a.Keys <= b.Keys
    requires forall k | k in b :: b[k] == if k in a then a[k] else 0
    ensures MapSum(a) == MapSum(b)
    decreases |b|
  {
    if k :| k in b && k !in a {
      SumRemove(b, k);
      SumExtend(a, b - {k});
    } else {
      assert a == b;
    }
  }

  lemma QuotesKeep(s: System, t: System)
    requires SettlerInv(s) && QuotesOnly(s, t) && QuotesGrow(s, t) && ConfigOk(t.settler)
    ensures SettlerInv(t)
  {
    forall c ensures DriftOk(t, c) { assert DriftOk(s, c) && RemainingMap(t, c) == RemainingMap(s, c); }
    forall mint ensures Backed(t, mint) { assert Backed(s, mint) && CustodyMap(t, mint) == CustodyMap(s, mint); }
    forall maker ensures FillsWritten(t, maker) { QuoteFills(s, t, maker); }
    forall q ensures QuoteOk(t, q) { assert QuoteOk(s, q); }
  }

  lemma CancelKeeps(s: System, maker: Key, id: u64)
    requires SettlerInv(s) && CancelQuote(s, maker, id).Ok?
    ensures SettlerInv(CancelQuote(s, maker, id).value)
  {
    hide SettlerInv;
    assert ConfigOk(s.settler) by { SettlerConfigOk(s); }
    QuotesKeep(s, CancelQuote(s, maker, id).value);
  }

  lemma SettlerConfigOk(s: System)
    requires SettlerInv(s)
    ensures ConfigOk(s.settler)
  {
  }

  lemma NonceKeeps(s: System, maker: Key)
    requires SettlerInv(s) && IncrementNonce(s, maker).Ok?
    ensures SettlerInv(IncrementNonce(s, maker).value)
  {
    hide SettlerInv;
    SettlerConfigOk(s);
    QuotesKeep(s, IncrementNonce(s, maker).value);
  }

  lemma WhitelistKeeps(s: System, signer: Key, maker: Key, whitelisted: bool)
    requires SettlerInv(s) && WhitelistMaker(s, signer, maker, whitelisted).Ok?
    ensures SettlerInv(WhitelistMaker(s, signer, maker, whitelisted).value)
  {
    hide SettlerInv;
    SettlerConfigOk(s);
    QuotesKeep(s, WhitelistMaker(s, signer, maker, whitelisted).value);
  }
}
