/** Signed quotes: the message a maker signs, the search for an instruction that
    carries it among the earlier ones of the transaction, and when such an
    instruction is one whose key and message the precompile verified. */
module Quotes {
  import opened Wrappers
  import opened Ints
  import opened Bytes
  import opened Model

  /** The seven signed fields. */
  datatype Quote = Quote(otoken: Key, premiumMint: Key, bidPrice: u64, deadline: i64, id: u64, maxAmount: u64, nonce: u64)

  function Message(q: Quote): (m: seq<byte>)
    ensures |m| == 104
  {
    ToLE(q.otoken, 32) + ToLE(q.premiumMint, 32) + ToLE(q.bidPrice, 8) + ToLE(Unsigned(q.deadline, HALF64), 8)
    + ToLE(q.id, 8) + ToLE(q.maxAmount, 8) + ToLE(q.nonce, 8)
  }

  /** `build_quote_message`: the buffer is filled field by field. */
  method BuildQuoteMessage(q: Quote) returns (m: seq<byte>)
    ensures m == Message(q)
  {
    m := ToLE(q.otoken, 32);
    m := m + ToLE(q.premiumMint, 32);
    m := m + ToLE(q.bidPrice, 8);
    m := m + ToLE(Unsigned(q.deadline, HALF64), 8);
    m := m + ToLE(q.id, 8);
    m := m + ToLE(q.maxAmount, 8);
    m := m + ToLE(q.nonce, 8);
  }

  /** Where each field is: little-endian, the deadline in two's complement. */
  lemma FieldsOfMessage(q: Quote)
    ensures var m := Message(q);
            && m[0..32] == ToLE(q.otoken, 32) && m[32..64] == ToLE(q.premiumMint, 32)
            && m[64..72] == ToLE(q.bidPrice, 8) && m[72..80] == ToLE(Unsigned(q.deadline, 0x8000_0000_0000_0000), 8)
            && m[80..88] == ToLE(q.id, 8) && m[88..96] == ToLE(q.maxAmount, 8) && m[96..104] == ToLE(q.nonce, 8)
  {
    SlicesOfSeven(ToLE(q.otoken, 32), ToLE(q.premiumMint, 32), ToLE(q.bidPrice, 8), ToLE(Unsigned(q.deadline, HALF64), 8),
                  ToLE(q.id, 8), ToLE(q.maxAmount, 8), ToLE(q.nonce, 8));
  }

  lemma SlicesOfSeven(a: seq<byte>, b: seq<byte>, c: seq<byte>, d: seq<byte>, e: seq<byte>, f: seq<byte>, g: seq<byte>)
    requires |a| == |b| == 32 && |c| == |d| == |e| == |f| == |g| == 8
    ensures var m := a + b + c + d + e + f + g;
            && m[0..32] == a && m[32..64] == b && m[64..72] == c && m[72..80] == d
            && m[80..88] == e && m[88..96] == f && m[96..104] == g
  {
  }

  /** Different quotes have different messages. */
  lemma MessageInjective(a: Quote, b: Quote)
    requires Message(a) == Message(b)
    ensures a == b
  {
    FieldsOfMessage(a);
    FieldsOfMessage(b);
    Spans();
    forall q | q in {a, b}
      ensures FromLE(ToLE(q.otoken, 32)) == q.otoken && FromLE(ToLE(q.premiumMint, 32)) == q.premiumMint
      ensures FromLE(ToLE(q.bidPrice, 8)) == q.bidPrice
      ensures FromLE(ToLE(Unsigned(q.deadline, HALF64), 8)) == Unsigned(q.deadline, HALF64)
      ensures FromLE(ToLE(q.id, 8)) == q.id && FromLE(ToLE(q.maxAmount, 8)) == q.maxAmount
      ensures FromLE(ToLE(q.nonce, 8)) == q.nonce
    {
      LERoundTrip(q.otoken, 32);
      LERoundTrip(q.premiumMint, 32);
      LERoundTrip(q.bidPrice, 8);
      LERoundTrip(Unsigned(q.deadline, HALF64), 8);
      LERoundTrip(q.id, 8);
      LERoundTrip(q.maxAmount, 8);
      LERoundTrip(q.nonce, 8);
    }
  }

  // ---------------------------------------------------------------- scan

  /** An instruction of the running transaction. */
  datatype Ix = Ix(program: nat, data: seq<byte>)

  /** The program id of the signature precompile: some fixed address. */
  const ED25519: nat := 1

  /** Whether one signature instruction carries `message` and `pubkey` at the
      offsets it gives. */
  function InstructionMatches(data: seq<byte>, pubkey: seq<byte>, message: seq<byte>): Result<bool> {
    var length := |data|;
    :- Need(length >= 16, InvalidEd25519Data);
    :- Need(data[0] == 1, InvalidEd25519Data);
    var keyAt, messageAt, size := FromLE(data[6..8]), FromLE(data[10..12]), FromLE(data[12..14]);
    :- Need(keyAt + 32 <= length, InvalidEd25519Data);
    :- Need(messageAt + size <= length, InvalidEd25519Data);
    Ok(data[keyAt..keyAt + 32] == pubkey && size == |message| && data[messageAt..messageAt + size] == message)
  }

  predicate Accepts(ix: Ix, pubkey: seq<byte>, message: seq<byte>) {
    ix.program == ED25519 && InstructionMatches(ix.data, pubkey, message) == Ok(true)
  }

  /** A quote passes exactly when an instruction before the current one carries
      it, whatever malformed ones stand among them. */
  function VerifySignature(ixs: seq<Ix>, current: nat, pubkey: seq<byte>, message: seq<byte>): Result<()> {
    if exists i :: 0 <= i < current && i < |ixs| && Accepts(ixs[i], pubkey, message) then Ok(())
    else if current <= |ixs| && exists i :: 0 <= i < current && ixs[i].program == ED25519 then Err(InvalidSignature)
    else Err(InvalidEd25519Instruction)
  }

  /** `verify_ed25519_signature`. */
  method ScanForSignature(ixs: seq<Ix>, current: nat, pubkey: seq<byte>, message: seq<byte>) returns (r: Result<()>)
    ensures r == VerifySignature(ixs, current, pubkey, message)
  {
    var sawEd25519 := false;
    for i := 0 to current
      invariant i <= |ixs|
      invariant sawEd25519 <==> exists j :: 0 <= j < i && ixs[j].program == ED25519
      invariant forall j :: 0 <= j < i ==> !Accepts(ixs[j], pubkey, message)
    {
      if i >= |ixs| {
        return Err(InvalidEd25519Instruction);
      }
      if ixs[i].program != ED25519 {
        continue;
      }
      sawEd25519 := true;
      var matches := InstructionMatches(ixs[i].data, pubkey, message);
      if matches.Ok? && matches.value {
        return Ok(());
      }
    }
    r := if sawEd25519 then Err(InvalidSignature) else Err(InvalidEd25519Instruction);
  }

  /** One signature instruction carries one key and one quote only. */
  lemma OneQuotePerSignature(data: seq<byte>, p: seq<byte>, a: Quote, q: seq<byte>, b: Quote)
    requires InstructionMatches(data, p, Message(a)) == Ok(true)
    requires InstructionMatches(data, q, Message(b)) == Ok(true)
    ensures p == q && a == b
  {
    hide Message;
    MessageInjective(a, b);
  }

  function U16(low: int, high: int): int { low + 256 * high }

  /** Exactly which instructions are accepted, byte by byte: one signature, and key
      and message where the offsets in bytes 6, 10 and the size in byte 12 say. */
  lemma AcceptsIff(ix: Ix, pubkey: seq<byte>, message: seq<byte>)
    ensures Accepts(ix, pubkey, message)
       <==> && ix.program == ED25519 && |ix.data| >= 16 && ix.data[0] == 1
            && var d := ix.data;
               var keyAt, messageAt, size := U16(d[6], d[7]), U16(d[10], d[11]), U16(d[12], d[13]);
            && keyAt + 32 <= |d| && messageAt + size <= |d|
            && d[keyAt..keyAt + 32] == pubkey && d[messageAt..messageAt + size] == message
  {
    if |ix.data| >= 16 {
      TwoBytes(ix.data[6..8]);
      TwoBytes(ix.data[10..12]);
      TwoBytes(ix.data[12..14]);
    }
  }

  lemma TwoBytes(b: seq<byte>)
    requires |b| == 2
    ensures FromLE(b) == U16(b[0], b[1])
  {
    assert b[1..][1..] == [];
  }

  // ---------------------------------------------------------------- what the precompile verifies

  /** Key and message of one verified signature. */
  datatype Verified = Verified(key: seq<byte>, message: seq<byte>)

  const THIS_INSTRUCTION: nat := 0xFFFF

  /** The bytes an index field points into: the instruction's own, or those of
      another instruction of the transaction. */
  function Referred(ixs: seq<Ix>, i: nat, index: nat): Option<seq<byte>>
    requires i < |ixs|
  {
    if index == THIS_INSTRUCTION then Some(ixs[i].data)
    else if index < |ixs| then Some(ixs[index].data)
    else None
  }

  function Slice(data: Option<seq<byte>>, at: nat, size: nat): Option<seq<byte>> {
    if data.Some? && at + size <= |data.value| then Some(data.value[at..at + size]) else None
  }

  function KeyIndex(data: seq<byte>): nat
    requires |data| >= 16
  {
    FromLE(data[8..10])
  }

  function MessageIndex(data: seq<byte>): nat
    requires |data| >= 16
  {
    FromLE(data[14..16])
  }

  /** Key and message as Solana's Ed25519 program takes them for the one signature
      of instruction `i`: like offsets and size, the index fields are part of the
      instruction. Without them it fails, and the transaction with it. */
  function PrecompileReads(ixs: seq<Ix>, i: nat): Option<Verified>
    requires i < |ixs| && |ixs[i].data| >= 16
  {
    var data := ixs[i].data;
    var key := Slice(Referred(ixs, i, KeyIndex(data)), FromLE(data[6..8]), 32);
    var message := Slice(Referred(ixs, i, MessageIndex(data)), FromLE(data[10..12]), FromLE(data[12..14]));
    if key.Some? && message.Some? then Some(Verified(key.value, message.value)) else None
  }

  /** Key and message of instruction `i` are its own. */
  predicate SelfIndexed(data: seq<byte>, i: nat) {
    |data| >= 16 && KeyIndex(data) in {THIS_INSTRUCTION, i} && MessageIndex(data) in {THIS_INSTRUCTION, i}
  }

  /** Whatever else the transaction holds, if the precompile accepts instruction
      `i` at all, it has verified this key and this message. */
  ghost predicate AlwaysVerified(ix: Ix, i: nat, pubkey: seq<byte>, message: seq<byte>)
    requires |ix.data| >= 16
  {
    forall ixs: seq<Ix> | i < |ixs| && ixs[i] == ix :: PrecompileReads(ixs, i) in {None, Some(Verified(pubkey, message))}
  }

  /** Acceptance means that the precompile verified key and message exactly when
      the index fields, which the settler does not read, name the instruction
      itself. */
  lemma AcceptanceIsVerificationIff(ix: Ix, i: nat, pubkey: seq<byte>, message: seq<byte>)
    requires Accepts(ix, pubkey, message) && |pubkey| == 32 && message != []
    ensures AlwaysVerified(ix, i, pubkey, message) <==> SelfIndexed(ix.data, i)
  {
    if SelfIndexed(ix.data, i) {
      forall ixs: seq<Ix> | i < |ixs| && ixs[i] == ix
        ensures PrecompileReads(ixs, i) in {None, Some(Verified(pubkey, message))}
      {
      }
    } else {
      ElsewhereVerified(ix, i, pubkey, message);
    }
  }

  /** Instruction `ix` at `i` among others that hold nothing but `filler`. */
  function Among(ix: Ix, i: nat, filler: byte): seq<Ix> {
    seq(0x1_0000 + i, j => if j == i then ix else Ix(ED25519, seq(0x2_0000, _ => filler)))
  }

  lemma SliceOfFiller(filler: byte, at: nat, size: nat)
    requires at < 0x1_0000 && 0 < size < 0x1_0000
    ensures var r := Slice(Some(seq(0x2_0000, _ => filler)), at, size);
            r.Some? && |r.value| == size && r.value[0] == filler
  {
  }

  lemma ReferredAmong(ix: Ix, i: nat, filler: byte, index: nat)
    requires index < 0x1_0000
    ensures |Among(ix, i, filler)| == 0x1_0000 + i && Among(ix, i, filler)[i] == ix
    ensures Referred(Among(ix, i, filler), i, index)
         == Some(if index in {THIS_INSTRUCTION, i} then ix.data else seq(0x2_0000, _ => filler))
  {
  }

  function Other(b: byte): byte { if b == 0 then 1 else 0 }

  /** An instruction that refers elsewhere is accepted all the same, in some
      transaction where the precompile has verified other bytes. */
  lemma ElsewhereVerified(ix: Ix, i: nat, pubkey: seq<byte>, message: seq<byte>)
    requires Accepts(ix, pubkey, message) && |pubkey| == 32 && message != [] && !SelfIndexed(ix.data, i)
    ensures exists ixs: seq<Ix> :: i < |ixs| && ixs[i] == ix && PrecompileReads(ixs, i) !in {None, Some(Verified(pubkey, message))}
  {
    hide Among, Referred, Slice;
    var keyElsewhere := KeyIndex(ix.data) !in {THIS_INSTRUCTION, i};
    var filler := if keyElsewhere then Other(pubkey[0]) else Other(message[0]);
    assert Span(2) == 0x1_0000;
    ReferredAmong(ix, i, filler, KeyIndex(ix.data));
    ReferredAmong(ix, i, filler, MessageIndex(ix.data));
    SliceOfFiller(filler, FromLE(ix.data[6..8]), 32);
    SliceOfFiller(filler, FromLE(ix.data[10..12]), FromLE(ix.data[12..14]));
    OwnSlices(ix.data, pubkey, message);
    var ixs := Among(ix, i, filler);
    assert PrecompileReads(ixs, i).Some?;
  }

  lemma OwnSlices(data: seq<byte>, pubkey: seq<byte>, message: seq<byte>)
    requires InstructionMatches(data, pubkey, message) == Ok(true)
    ensures Slice(Some(data), FromLE(data[6..8]), 32) == Some(pubkey)
    ensures Slice(Some(data), FromLE(data[10..12]), FromLE(data[12..14])) == Some(message)
  {
  }

  /** Instruction `i` carries key and message, and they are what the precompile
      verified when its index fields name itself. */
  ghost predicate Carries(ixs: seq<Ix>, i: nat, pubkey: seq<byte>, message: seq<byte>)
    requires i < |ixs|
  {
    && Accepts(ixs[i], pubkey, message)
    && |ixs[i].data| >= 16
    && (SelfIndexed(ixs[i].data, i) ==> PrecompileReads(ixs, i) == Some(Verified(pubkey, message)))
  }

  lemma AcceptedIsCarried(ixs: seq<Ix>, i: nat, pubkey: seq<byte>, message: seq<byte>)
    requires i < |ixs| && Accepts(ixs[i], pubkey, message) && |pubkey| == 32
    ensures Carries(ixs, i, pubkey, message)
  {
  }

  // ---------------------------------------------------------------- the client's layout

  /** The instruction a client builds: one signature, then the offsets of the
      signature, the key and the message, which follow in that layout. */
  function SignatureData(pubkey: seq<byte>, signature: seq<byte>, message: seq<byte>): seq<byte> {
    [1, 0] + ToLE(48, 2) + [255, 255] + ToLE(16, 2) + [255, 255] + ToLE(112, 2) + ToLE(|message|, 2) + [255, 255]
    + pubkey + signature + message
  }

  lemma SlicesOfSignature(a: seq<byte>, k: seq<byte>, b: seq<byte>, m: seq<byte>, n: seq<byte>, c: seq<byte>,
                          pubkey: seq<byte>, signature: seq<byte>, message: seq<byte>)
    requires |a| == 6 && |k| == |b| == |m| == |n| == |c| == 2 && |pubkey| == 32 && |signature| == 64
    ensures var d := a + k + b + m + n + c + pubkey + signature + message;
            && |d| == 112 + |message| && d[0] == a[0] && d[6..8] == k && d[8..10] == b && d[10..12] == m && d[12..14] == n && d[14..16] == c
            && d[16..48] == pubkey && d[112..112 + |message|] == message
  {
  }

  /** Such an instruction is accepted for its key and its message, and wherever it
      stands they are what the precompile verifies. */
  lemma LayoutIsAccepted(pubkey: seq<byte>, signature: seq<byte>, message: seq<byte>)
    requires |pubkey| == 32 && |signature| == 64 && |message| < 0x1_0000
    ensures InstructionMatches(SignatureData(pubkey, signature, message), pubkey, message) == Ok(true)
    ensures forall i :: SelfIndexed(SignatureData(pubkey, signature, message), i)
  {
    assert Span(2) == 0x1_0000;
    LERoundTrip(16, 2);
    LERoundTrip(112, 2);
    LERoundTrip(|message|, 2);
    var head := [1, 0] + ToLE(48, 2) + [255, 255];
    SlicesOfSignature(head, ToLE(16, 2), [255, 255], ToLE(112, 2), ToLE(|message|, 2), [255, 255], pubkey, signature, message);
    assert SignatureData(pubkey, signature, message)
        == head + ToLE(16, 2) + [255, 255] + ToLE(112, 2) + ToLE(|message|, 2) + [255, 255] + pubkey + signature + message;
  }
}
