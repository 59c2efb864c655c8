/** The oracle: reading a price update, normalising it, and the bounds a
    submitted expiry price must meet. */
module Oracle {
  import opened Wrappers
  import opened Ints
  import opened Bytes
  import opened Model

  const HALF32: nat := 0x8000_0000

  /** The first eight bytes of a price update account. */
  const DISCRIMINATOR: seq<byte> := [0x34, 0x2a, 0x89, 0x6f, 0xc1, 0xd0, 0x82, 0x04]

  datatype PriceAccount = PriceAccount(owner: Key, data: seq<byte>)

  datatype PythPrice = PythPrice(price: i64, conf: u64, exponent: i32, publishTime: i64)

  // ---------------------------------------------------------------- reading

  function ReadU64(b: seq<byte>): u64
    requires |b| == 8
  {
    Spans();
    FromLE(b)
  }

  function ReadI64(b: seq<byte>): i64
    requires |b| == 8
  {
    Spans();
    Signed(FromLE(b), HALF64)
  }

  function ReadI32(b: seq<byte>): i32
    requires |b| == 4
  {
    Spans();
    Signed(FromLE(b), HALF32)
  }

  /** Where the price message starts: after the discriminator, the authority and
      a verification level of one byte, or of two when its tag is zero. */
  function MessageStart(data: seq<byte>): nat
    requires |data| >= 101
  {
    if data[40] == 0 then 42 else 41
  }

  function ParsePrice(a: PriceAccount, receiver: Key, feedId: seq<byte>): Result<PythPrice> {
    var data := a.data;
    :- Need(a.owner == receiver, InvalidPythAccount);
    :- Need(|data| >= 101, InvalidPythAccount);
    :- Need(data[..8] == DISCRIMINATOR, InvalidPythAccount);
    var m := MessageStart(data);
    :- Need(|data| >= m + 60, InvalidPythAccount);
    :- Need(data[m..m + 32] == feedId, FeedIdMismatch);
    var p := PythPrice(ReadI64(data[m + 32..m + 40]), ReadU64(data[m + 40..m + 48]),
                       ReadI32(data[m + 48..m + 52]), ReadI64(data[m + 52..m + 60]));
    :- Need(p.price > 0, InvalidPrice);
    Ok(p)
  }

  /** `parse_pyth_price_update`, advancing an offset field by field. */
  method ParsePythPriceUpdate(a: PriceAccount, receiver: Key, feedId: seq<byte>) returns (r: Result<PythPrice>)
    ensures r == ParsePrice(a, receiver, feedId)
  {
    var data := a.data;
    :- Need(a.owner == receiver, InvalidPythAccount);
    :- Need(|data| >= 101, InvalidPythAccount);
    :- Need(data[..8] == DISCRIMINATOR, InvalidPythAccount);
    var off := 40;
    off := if data[off] == 0 then off + 2 else off + 1;
    :- Need(|data| >= off + 60, InvalidPythAccount);
    :- Need(data[off..off + 32] == feedId, FeedIdMismatch);
    off := off + 32;
    var price := ReadI64(data[off..off + 8]);
    off := off + 8;
    var conf := ReadU64(data[off..off + 8]);
    off := off + 8;
    var exponent := ReadI32(data[off..off + 4]);
    off := off + 4;
    var publishTime := ReadI64(data[off..off + 8]);
    :- Need(price > 0, InvalidPrice);
    return Ok(PythPrice(price, conf, exponent, publishTime));
  }

  /** How thoroughly an update was verified, as the layout encodes it. */
  datatype Level = Partial(signatures: byte) | Full

  function EncodeLevel(l: Level): seq<byte> {
    match l
    case Partial(n) => [0, n]
    case Full => [1]
  }

  /** The documented layout of a price update. */
  function Encode(authority: seq<byte>, l: Level, feedId: seq<byte>, p: PythPrice, trailing: seq<byte>): seq<byte> {
    DISCRIMINATOR + authority + EncodeLevel(l) + feedId
    + ToLE(Unsigned(p.price, HALF64), 8) + ToLE(p.conf, 8) + ToLE(Unsigned(p.exponent, HALF32), 4)
    + ToLE(Unsigned(p.publishTime, HALF64), 8) + trailing
  }

  lemma SlicesOfUpdate(d: seq<byte>, w: seq<byte>, l: seq<byte>, f: seq<byte>,
                       a: seq<byte>, b: seq<byte>, c: seq<byte>, e: seq<byte>, rest: seq<byte>)
    requires |d| == 8 && |w| == |f| == 32 && 1 <= |l| <= 2 && |a| == |b| == |e| == 8 && |c| == 4
    ensures var x := d + w + l + f + a + b + c + e + rest;
            var m := 40 + |l|;
            && |x| >= m + 60 && x[..8] == d && x[40] == l[0] && x[m..m + 32] == f && x[m + 32..m + 40] == a
            && x[m + 40..m + 48] == b && x[m + 48..m + 52] == c && x[m + 52..m + 60] == e
  {
  }

  lemma ReadWritten(p: PythPrice)
    ensures ReadI64(ToLE(Unsigned(p.price, HALF64), 8)) == p.price
    ensures ReadU64(ToLE(p.conf, 8)) == p.conf
    ensures ReadI32(ToLE(Unsigned(p.exponent, HALF32), 4)) == p.exponent
    ensures ReadI64(ToLE(Unsigned(p.publishTime, HALF64), 8)) == p.publishTime
  {
    Spans();
    LERoundTrip(Unsigned(p.price, HALF64), 8);
    LERoundTrip(p.conf, 8);
    LERoundTrip(Unsigned(p.exponent, HALF32), 4);
    LERoundTrip(Unsigned(p.publishTime, HALF64), 8);
  }

  /** The parser inverts the layout: any authority, either verification level and
      any trailing bytes; only the sign of the price can make it refuse. */
  lemma ParseInvertsEncode(owner: Key, authority: seq<byte>, l: Level, feedId: seq<byte>, p: PythPrice, trailing: seq<byte>)
    requires |authority| == 32 && |feedId| == 32
    ensures ParsePrice(PriceAccount(owner, Encode(authority, l, feedId, p, trailing)), owner, feedId)
         == if p.price > 0 then Ok(p) else Err(InvalidPrice)
  {
    hide ReadI64, ReadU64, ReadI32, ToLE;
    SlicesOfUpdate(DISCRIMINATOR, authority, EncodeLevel(l), feedId, ToLE(Unsigned(p.price, HALF64), 8), ToLE(p.conf, 8),
                   ToLE(Unsigned(p.exponent, HALF32), 4), ToLE(Unsigned(p.publishTime, HALF64), 8), trailing);
    ReadWritten(p);
  }

  /** The bytes the parser reads, field by field: eight of discriminator, 32 of
      authority, a tag of two bytes when the first is zero and of one otherwise,
      32 of feed, then price, confidence, exponent and time, and any rest. */
  predicate Laid(data: seq<byte>, authority: seq<byte>, tag: seq<byte>, feedId: seq<byte>, p: PythPrice, rest: seq<byte>) {
    && |authority| == 32
    && ((|tag| == 2 && tag[0] == 0) || (|tag| == 1 && tag[0] != 0))
    && data == [0x34, 0x2a, 0x89, 0x6f, 0xc1, 0xd0, 0x82, 0x04] + authority + tag + feedId
               + ToLE(Unsigned(p.price, 0x8000_0000_0000_0000), 8) + ToLE(p.conf, 8) + ToLE(Unsigned(p.exponent, 0x8000_0000), 4)
               + ToLE(Unsigned(p.publishTime, 0x8000_0000_0000_0000), 8) + rest
  }

  lemma LaidParses(a: PriceAccount, receiver: Key, feedId: seq<byte>, p: PythPrice, authority: seq<byte>, tag: seq<byte>, rest: seq<byte>)
    requires |feedId| == 32 && a.owner == receiver && p.price > 0 && Laid(a.data, authority, tag, feedId, p, rest)
    ensures ParsePrice(a, receiver, feedId) == Ok(p)
  {
    hide ReadI64, ReadU64, ReadI32, ToLE;
    SlicesOfUpdate([0x34, 0x2a, 0x89, 0x6f, 0xc1, 0xd0, 0x82, 0x04], authority, tag, feedId,
                   ToLE(Unsigned(p.price, HALF64), 8), ToLE(p.conf, 8), ToLE(Unsigned(p.exponent, HALF32), 4),
                   ToLE(Unsigned(p.publishTime, HALF64), 8), rest);
    ReadWritten(p);
  }

  /** Writing what was read. */
  lemma WrittenRead(a: seq<byte>, b: seq<byte>, c: seq<byte>, e: seq<byte>)
    requires |a| == |b| == |e| == 8 && |c| == 4
    ensures ToLE(Unsigned(ReadI64(a), HALF64), 8) == a && ToLE(ReadU64(b), 8) == b
    ensures ToLE(Unsigned(ReadI32(c), HALF32), 4) == c && ToLE(Unsigned(ReadI64(e), HALF64), 8) == e
  {
    hide ToLE;
    SignedBack(a);
    SignedBack(e);
    UnsignedBack(b);
    ShortBack(c);
  }

  lemma UnsignedBack(b: seq<byte>)
    requires |b| == 8
    ensures ToLE(ReadU64(b), 8) == b
  {
    hide ToLE, FromLE;
    LEInverse(b);
  }

  lemma SignedBack(b: seq<byte>)
    requires |b| == 8
    ensures ToLE(Unsigned(ReadI64(b), HALF64), 8) == b
  {
    hide ToLE, FromLE;
    Spans();
    LEInverse(b);
  }

  lemma ShortBack(b: seq<byte>)
    requires |b| == 4
    ensures ToLE(Unsigned(ReadI32(b), HALF32), 4) == b
  {
    hide ToLE, FromLE;
    Spans();
    LEInverse(b);
  }

  lemma CutUpdate(x: seq<byte>, m: nat)
    requires 41 <= m <= 42 && |x| >= m + 60
    ensures x == x[..8] + x[8..40] + x[40..m] + x[m..m + 32] + x[m + 32..m + 40] + x[m + 40..m + 48] + x[m + 48..m + 52]
                 + x[m + 52..m + 60] + x[m + 60..]
  {
  }

  /** The parser accepts exactly the accounts that the receiver owns and that hold a
      positive price for the feed in this layout, and returns that price. */
  lemma ParseIff(a: PriceAccount, receiver: Key, feedId: seq<byte>, p: PythPrice)
    requires |feedId| == 32
    ensures ParsePrice(a, receiver, feedId) == Ok(p)
       <==> a.owner == receiver && p.price > 0 && exists authority, tag, rest :: Laid(a.data, authority, tag, feedId, p, rest)
  {
    hide ReadI64, ReadU64, ReadI32, ToLE;
    if ParsePrice(a, receiver, feedId) == Ok(p) {
      var data, m := a.data, MessageStart(a.data);
      CutUpdate(data, m);
      WrittenRead(data[m + 32..m + 40], data[m + 40..m + 48], data[m + 48..m + 52], data[m + 52..m + 60]);
      assert Laid(data, data[8..40], data[40..m], feedId, p, data[m + 60..]);
    }
    if a.owner == receiver && p.price > 0 {
      forall authority, tag, rest | Laid(a.data, authority, tag, feedId, p, rest) ensures ParsePrice(a, receiver, feedId) == Ok(p) {
        LaidParses(a, receiver, feedId, p, authority, tag, rest);
      }
    }
  }

  // ---------------------------------------------------------------- checks

  function ValidateStaleness(now: i64, publishTime: i64, maxStaleness: u64): Check {
    if maxStaleness == 0 then Pass
    else if !(-0x8000_0000_0000_0000 <= now - publishTime <= 0x7FFF_FFFF_FFFF_FFFF) then Fail(MathOverflow)
    else if 0 <= now - publishTime <= maxStaleness then Pass
    else Fail(StalePrice)
  }

  function ValidateConfidence(price: i64, conf: u64, maxBps: u16): Check {
    if maxBps == 0 then Pass
    else
      var signed: int := price;
      var magnitude: nat := if signed >= 0 then signed else -signed;
      if magnitude == 0 then Fail(InvalidPrice)
      else if conf * BPS > U64_MAX then Fail(MathOverflow)
      else if conf * BPS / magnitude <= maxBps then Pass
      else Fail(ConfidenceTooWide)
  }

  function AbsDiff(a: nat, b: nat): nat { if a >= b then a - b else b - a }

  function ValidatePriceDeviation(submitted: u64, reference: u64, thresholdBps: u16): Check {
    if reference == 0 then Fail(InvalidPrice)
    else if thresholdBps == 0 then Pass
    else if AbsDiff(submitted, reference) * BPS > U64_MAX then Fail(MathOverflow)
    else if AbsDiff(submitted, reference) * BPS / reference <= thresholdBps then Pass
    else Fail(PriceDeviationTooHigh)
  }

  /** Rescale a price with any exponent to eight decimals. */
  function Normalize(price: i64, exponent: i32): Result<u64> {
    var positive := price > 0;
    :- Need(positive, InvalidPrice);
    :- Need(exponent + 8 <= 0x7FFF_FFFF, Trap);
    var diff := exponent + 8;
    if diff > 0 then
      :- Need(Pow10(diff) <= U64_MAX, MathOverflow);
      :- Need(price * Pow10(diff) <= U64_MAX, MathOverflow);
      Ok(price * Pow10(diff))
    else if diff < 0 then
      :- Need(Pow10(-diff) <= U64_MAX, MathOverflow);
      :- Need(price / Pow10(-diff) > 0, InvalidPrice);
      Ok(price / Pow10(-diff))
    else Ok(price)
  }

  // ---------------------------------------------------------------- exact bounds

  /** Truncating division accepts exactly the deviations strictly below one
      basis point above the threshold. */
  lemma DeviationBound(submitted: u64, reference: u64, thresholdBps: u16)
    requires thresholdBps > 0
    ensures ValidatePriceDeviation(submitted, reference, thresholdBps).Pass?
       <==> && reference > 0 && AbsDiff(submitted, reference) * 10_000 <= U64_MAX
            && AbsDiff(submitted, reference) * 10_000 < (thresholdBps + 1) * reference
  {
    if reference > 0 {
      var x := AbsDiff(submitted, reference) * BPS;
      DivLess(x, reference, thresholdBps + 1);
    }
  }

  /** The largest age that fits 63 bits and is within the limit. */
  function AgeLimit(maxStaleness: u64): i64 {
    if maxStaleness <= 0x7FFF_FFFF_FFFF_FFFF then maxStaleness else 0x7FFF_FFFF_FFFF_FFFF
  }

  /** An update is fresh when it is neither from the future nor too old; the age
      must itself fit 64 bits. Zero switches the check off. */
  lemma StalenessBound(now: i64, publishTime: i64, maxStaleness: u64)
    ensures ValidateStaleness(now, publishTime, maxStaleness).Pass?
       <==> maxStaleness == 0 || publishTime <= now <= publishTime + AgeLimit(maxStaleness)
  {
  }

  lemma ConfidenceBound(price: i64, conf: u64, maxBps: u16)
    requires price > 0 && maxBps > 0
    ensures ValidateConfidence(price, conf, maxBps).Pass? <==> conf * 10_000 <= U64_MAX && conf * 10_000 < (maxBps + 1) * price
  {
    DivLess(conf * BPS, price, maxBps + 1);
  }

  /** The scale from raw price to eight decimals, as a fraction. */
  function Up(exponent: int): nat { if exponent >= -8 then Pow10(exponent + 8) else 1 }

  function Down(exponent: int): (d: nat)
    ensures d > 0
  {
    if exponent >= -8 then 1 else Pow10(-8 - exponent)
  }

  /** Normalisation is the exact floor of the scaled price and at least one; it
      fails exactly when the power or the result does not fit 64 bits, or when
      the result would be zero. */
  lemma NormalizeIsFloor(price: i64, exponent: i32)
    requires price > 0
    ensures var n := Normalize(price, exponent);
            var exact := price * Up(exponent) / Down(exponent);
            && (n.Ok? <==> -27 <= exponent <= 11 && 1 <= exact <= U64_MAX)
            && (n.Ok? ==> n.value == exact && Down(exponent) * n.value <= price * Up(exponent) < Down(exponent) * n.value + Down(exponent))
  {
    var diff := exponent + 8;
    if diff > 0 {
      Pow10Fits64(diff);
      var y := price * Pow10(diff);
      assert y / 1 == y;
    } else if diff < 0 {
      Pow10Fits64(-diff);
      assert price * 1 == price;
      QuotientBounds(price, Pow10(-diff));
    } else {
      assert Pow10(0) == 1;
    }
  }

  lemma NormalizeMono(p: i64, q: i64, exponent: i32)
    requires 0 < p <= q
    requires Normalize(p, exponent).Ok? && Normalize(q, exponent).Ok?
    ensures Normalize(p, exponent).value <= Normalize(q, exponent).value
  {
    NormalizeIsFloor(p, exponent);
    NormalizeIsFloor(q, exponent);
    MulMono(Up(exponent), p, q);
    DivMono(p * Up(exponent), q * Up(exponent), Down(exponent));
  }

  /** `s` lies within `(t + 1)` basis points of the raw price `p * up / down`,
      with the one unit that flooring the reference can lose. */
  predicate WithinRaw(s: nat, p: nat, up: nat, down: nat, t: nat) {
    && s * 10_000 * down < (t + 10_001) * (p * up)
    && s * 10_000 * down > (9_999 - t) * (p * up - down + 1)
  }

  lemma Swapped(a: int, b: int, c: int)
    ensures a * (b * c) == b * (a * c)
  {
  }

  /** A bound on multiples of the floored reference, carried to the raw one. */
  lemma BelowRaw(x: int, k: nat, n: nat, raw: nat, down: nat)
    requires down >= 1 && x < k * n && down * n <= raw
    ensures down * x < k * raw
  {
    MulStep(down, x, k * n);
    MulMono(k, down * n, raw);
    Swapped(down, k, n);
  }

  lemma AboveRaw(x: int, k: nat, n: nat, low: int, down: nat)
    requires down >= 1 && x > k * n && low <= down * n
    ensures down * x > k * low
  {
    MulStep(down, k * n, x);
    MulMono(k, low, down * n);
    Swapped(down, k, n);
  }

  lemma DeviationBounds(x: int, n: nat, t: nat)
    requires -(t + 1) * n < x - 10_000 * n < (t + 1) * n
    ensures x < (t + 10_001) * n
    ensures x > (9_999 - t) * n
  {
    assert (t + 10_001) * n == (t + 1) * n + 10_000 * n;
    assert (9_999 - t) * n == 10_000 * n - (t + 1) * n;
  }

  lemma DeviationFromRaw(s: nat, n: nat, raw: nat, down: nat, t: nat)
    requires s > 0 && n >= 1 && down >= 1
    requires AbsDiff(s, n) * BPS < (t + 1) * n
    requires down * n <= raw < down * n + down
    ensures s * 10_000 * down < (t + 10_001) * raw
    ensures s * BPS * down > (9_999 - t) * (raw - down + 1)
  {
    var x := s * BPS;
    DeviationBounds(x, n, t);
    BelowRaw(x, t + 10_001, n, raw, down);
    if t <= 9_999 {
      AboveRaw(x, 9_999 - t, n, raw - down + 1, down);
    } else {
      MulMono(down, 1, x);
      MulMono(down, 1, n);
      MulMono(raw - down + 1, 9_999 - t, 0);
    }
  }

  // ---------------------------------------------------------------- instructions

  function SetExpiryPrice(s: System, caller: Key, underlying: Key, expiry: i64, price: u64, a: PriceAccount): Result<System> {
    var k := PriceKey(underlying, expiry);
    :- Need(k !in s.prices, AccountInUse);
    :- Need(caller == s.oracle.admin || caller == s.oracle.operator, Unauthorized);
    :- Need(underlying in s.feeds, AccountMissing);
    :- Need(price > 0, InvalidPrice);
    :- Need(s.now >= expiry, ExpiryNotReached);
    :- Need(s.feeds[underlying].active, FeedNotActive);
    :- Need(s.oracle.thresholdBps > 0, InvalidDeviationThreshold);
    var p :- ParsePrice(a, s.oracle.receiver, s.feeds[underlying].feedId);
    :- ValidateStaleness(s.now, p.publishTime, s.oracle.maxStaleness);
    :- ValidateConfidence(p.price, p.conf, s.oracle.maxConfidenceBps);
    var reference :- Normalize(p.price, p.exponent);
    :- ValidatePriceDeviation(price, reference, s.oracle.thresholdBps);
    Ok(s.(prices := s.prices[k := price]))
  }

  /** The update parses for the feed of the asset, its raw price is close to
      `price`, and it is recent and tight when those checks are on. */
  predicate BackedByUpdate(s: System, underlying: Key, price: u64, a: PriceAccount) {
    && underlying in s.feeds && ParsePrice(a, s.oracle.receiver, s.feeds[underlying].feedId).Ok?
    && var p := ParsePrice(a, s.oracle.receiver, s.feeds[underlying].feedId).value;
    && p.price > 0 && WithinRaw(price, p.price, Up(p.exponent), Down(p.exponent), s.oracle.thresholdBps)
    && (s.oracle.maxConfidenceBps > 0 ==> p.conf * 10_000 < (s.oracle.maxConfidenceBps + 1) * p.price)
    && (s.oracle.maxStaleness > 0 ==> 0 <= s.now - p.publishTime <= s.oracle.maxStaleness)
  }

  /** Any price the oracle finalises is close to the raw price of the update it
      was checked against, which was recent and tight when those checks are on. */
  lemma AcceptedPriceBound(s: System, caller: Key, underlying: Key, expiry: i64, price: u64, a: PriceAccount)
    requires SetExpiryPrice(s, caller, underlying, expiry, price, a).Ok?
    ensures BackedByUpdate(s, underlying, price, a)
  {
    hide ParsePrice, Normalize, ValidatePriceDeviation, ValidateConfidence;
    var p := ParsePrice(a, s.oracle.receiver, s.feeds[underlying].feedId).value;
    ParsedPositive(a, s.oracle.receiver, s.feeds[underlying].feedId);
    NormalizeIsFloor(p.price, p.exponent);
    var n := Normalize(p.price, p.exponent).value;
    DeviationBound(price, n, s.oracle.thresholdBps);
    DeviationFromRaw(price, n, p.price * Up(p.exponent), Down(p.exponent), s.oracle.thresholdBps);
    if s.oracle.maxConfidenceBps > 0 {
      ConfidenceBound(p.price, p.conf, s.oracle.maxConfidenceBps);
    }
  }

  lemma ParsedPositive(a: PriceAccount, receiver: Key, feedId: seq<byte>)
    requires ParsePrice(a, receiver, feedId).Ok?
    ensures ParsePrice(a, receiver, feedId).value.price > 0
  {
  }

  function RegisterFeed(s: System, signer: Key, underlying: Key, feedId: seq<byte>): Result<System> {
    var free := underlying !in s.feeds;
    :- Need(free, AccountInUse);
    :- Need(signer == s.oracle.admin, ConstraintViolated);
    Ok(s.(feeds := s.feeds[underlying := Feed(feedId, true)]))
  }

  function SetFeedActive(s: System, signer: Key, underlying: Key, active: bool): Result<System> {
    var known := underlying in s.feeds;
    :- Need(known, AccountMissing);
    :- Need(signer == s.oracle.admin, ConstraintViolated);
    Ok(s.(feeds := s.feeds[underlying := s.feeds[underlying].(active := active)]))
  }

  function DeregisterFeed(s: System, signer: Key, underlying: Key): Result<System> {
    var known := underlying in s.feeds;
    :- Need(known, AccountMissing);
    :- Need(signer == s.oracle.admin, ConstraintViolated);
    :- Need(s.feeds[underlying].active, FeedNotActive);
    Ok(s.(feeds := s.feeds[underlying := s.feeds[underlying].(active := false)]))
  }

  function SetOperator(s: System, signer: Key, operator: Key): Result<System> {
    var config := s.oracle;
    :- Need(signer == config.admin, ConstraintViolated);
    :- Need(operator != 0, ZeroAddress);
    Ok(s.(oracle := config.(operator := operator)))
  }

  function TransferOwnership(s: System, signer: Key, newAdmin: Key): Result<System> {
    var config := s.oracle;
    :- Need(signer == config.admin, ConstraintViolated);
    :- Need(newAdmin != 0, ZeroAddress);
    Ok(s.(oracle := config.(pendingAdmin := newAdmin)))
  }

  function AcceptOwnership(s: System, signer: Key): Result<System> {
    var config := s.oracle;
    :- Need(signer == config.pendingAdmin, NotPendingAdmin);
    Ok(s.(oracle := config.(admin := config.pendingAdmin, pendingAdmin := 0)))
  }

  function SetThreshold(s: System, signer: Key, thresholdBps: u16): Result<System> {
    var config := s.oracle;
    :- Need(signer == config.admin, ConstraintViolated);
    :- Need(thresholdBps > 0, InvalidDeviationThreshold);
    Ok(s.(oracle := config.(thresholdBps := thresholdBps)))
  }

  function SetLimits(s: System, signer: Key, maxStaleness: u64, maxConfidenceBps: u16): Result<System> {
    var config := s.oracle;
    :- Need(signer == config.admin, ConstraintViolated);
    Ok(s.(oracle := config.(maxStaleness := maxStaleness, maxConfidenceBps := maxConfidenceBps)))
  }
}
