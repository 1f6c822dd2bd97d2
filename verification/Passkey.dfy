/**
 Passkey authentication (`program/src/auth/secp256r1/mod.rs`): the odometer in the authority
 account, the slot window, the challenge an assertion answers, and the precompile that verified
 the signature.

 SHA-256 is a parameter with no assumed injectivity. Where a result rests on its collision
 resistance, the result names the two strings that would collide.
 */
module Passkey {
  import opened Bytes
  import Base64Url
  import ClientData

  type u32 = x: int | 0 <= x <= U32_MAX

  const MAX_SLOT_AGE: nat := 150
  const HEADER_LEN: nat := 48
  const COUNTER_AT: nat := 8
  const WALLET_AT: nat := 16
  const PUBKEY_AT: nat := 80
  const RP_ID_HASH_AT: nat := 113
  const FIXED_LEN: nat := 145
  const AUTH_DATA_MIN_LEN: nat := 37

  /** `type`, `challenge` and `webauthn.get`, in ASCII. */
  const TYPE: seq<byte> := [116, 121, 112, 101]
  const CHALLENGE: seq<byte> := [99, 104, 97, 108, 108, 101, 110, 103, 101]
  const WEBAUTHN_GET: seq<byte> := [119, 101, 98, 97, 117, 116, 104, 110, 46, 103, 101, 116]

  /** `Sysvar1nstructions1111111111111111111111111`. */
  const INSTRUCTIONS_ID: Key :=
    [6, 167, 213, 23, 24, 123, 209, 102, 53, 218, 212, 4, 85, 253, 194, 192, 193, 36, 198, 143, 33, 86, 117, 165, 219,
        186, 203, 95, 8, 0, 0, 0]

  /** `Secp256r1SigVerify1111111111111111111111111`. */
  const SECP256R1_ID: Key :=
    [6, 146, 13, 236, 47, 234, 113, 181, 183, 35, 129, 77, 116, 45, 169, 3, 28, 131, 231, 95, 219, 121, 93, 86, 142,
        117, 71, 128, 32, 0, 0, 0]

  function ReadU32(data: seq<byte>, offset: nat): (v: u32)
    requires offset + 4 <= |data|
  {
    FromLeBound(data[offset..offset + 4]);
    PowersOf256();
    FromLe(data[offset..offset + 4])
  }

  // ---------------------------------------------------------------------------
  // The authentication payload
  // ---------------------------------------------------------------------------

  /** What the payload carries: the fourteen signed bytes, then the authenticator's answer. */
  datatype Assertion = Assertion(
    slot: u64, counter: u32, sysvarIndex: byte, reserved: byte,
    authenticatorData: seq<byte>, clientDataJson: seq<byte>)

  function Prefix(a: Assertion): (s: seq<byte>)
    ensures |s| == 14
  {
    ToLe(a.slot, 8) + ToLe(a.counter, 4) + [a.sysvarIndex, a.reserved]
  }

  function EncodeAssertion(a: Assertion): seq<byte> {
    Prefix(a) + ToLe(|a.authenticatorData|, 2) + a.authenticatorData + ToLe(|a.clientDataJson|, 2) + a.clientDataJson
  }

  predicate Encodable(a: Assertion) {
    |a.authenticatorData| < 0x1_0000 && 0 < |a.clientDataJson| < 0x1_0000
  }

  /** The payload split of `authenticate`: the two lengths must use up every byte. */
  function ParseAssertion(p: seq<byte>): Option<Assertion> {
    if |p| < 18 then None
    else
      var adLen := ReadU16(p, 14);
      if |p| < 16 + adLen + 2 then None
      else
        var cdjLen := ReadU16(p, 16 + adLen);
        if cdjLen == 0 || |p| != 18 + adLen + cdjLen then None
        else Some(Assertion(ReadU64(p, 0), ReadU32(p, 8), p[12], p[13], p[16..16 + adLen], p[18 + adLen..]))
  }

  lemma ParsedIsEncoded(p: seq<byte>)
    requires ParseAssertion(p).Some?
    ensures Encodable(ParseAssertion(p).value) && EncodeAssertion(ParseAssertion(p).value) == p
    ensures Prefix(ParseAssertion(p).value) == p[..14]
  {
    var adLen := ReadU16(p, 14);
    var cdjLen := ReadU16(p, 16 + adLen);
    ToFromLe(p[0..8]);
    ToFromLe(p[8..12]);
    ToFromLe(p[14..16]);
    ToFromLe(p[16 + adLen..18 + adLen]);
    assert p[..14] == p[0..8] + p[8..12] + [p[12], p[13]];
    assert p == p[..14] + p[14..16] + p[16..16 + adLen] + p[16 + adLen..18 + adLen] + p[18 + adLen..];
  }

  lemma EncodedParts(a: Assertion)
    requires Encodable(a)
    ensures var p, n := EncodeAssertion(a), |a.authenticatorData|;
            && |p| == 18 + n + |a.clientDataJson|
            && p[0..8] == ToLe(a.slot, 8) && p[8..12] == ToLe(a.counter, 4) && p[12] == a.sysvarIndex
            && p[13] == a.reserved
            && p[14..16] == ToLe(n, 2) && p[16..16 + n] == a.authenticatorData
            && p[16 + n..18 + n] == ToLe(|a.clientDataJson|, 2) && p[18 + n..] == a.clientDataJson
  {
  }

  lemma EncodedParses(a: Assertion)
    requires Encodable(a)
    ensures ParseAssertion(EncodeAssertion(a)) == Some(a)
  {
    EncodedParts(a);
    PowersOf256();
    FromToLe(a.slot, 8);
    FromToLe(a.counter, 4);
    FromToLe(|a.authenticatorData|, 2);
    FromToLe(|a.clientDataJson|, 2);
  }

  /** A payload is read as an assertion exactly when it is that assertion's one encoding. */
  lemma PayloadIsAssertion(p: seq<byte>, a: Assertion)
    ensures ParseAssertion(p) == Some(a) <==> Encodable(a) && p == EncodeAssertion(a)
  {
    if ParseAssertion(p) == Some(a) {
      ParsedIsEncoded(p);
    }
    if Encodable(a) && p == EncodeAssertion(a) {
      EncodedParses(a);
    }
  }

  // ---------------------------------------------------------------------------
  // The precompile instruction
  // ---------------------------------------------------------------------------

  /** What the precompile checked when every part is taken from its own instruction. */
  datatype Verified = Verified(pubkey: seq<byte>, message: seq<byte>)

  /**
   The precompile's own reading of a one-signature instruction: it follows the offsets it is
   given, and `0xFFFF` stands for the instruction itself.
   */
  function PrecompileReads(ix: seq<byte>): Option<Verified> {
    if |ix| < 16 || ix[0] != 1 then None
    else if ReadU16(ix, 4) != 0xFFFF || ReadU16(ix, 8) != 0xFFFF || ReadU16(ix, 14) != 0xFFFF then None
    else
      var sigAt, keyAt, msgAt, msgLen := ReadU16(ix, 2), ReadU16(ix, 6), ReadU16(ix, 10), ReadU16(ix, 12);
      if |ix| < sigAt + 64 || |ix| < keyAt + 33 || |ix| < msgAt + msgLen then None
      else Some(Verified(ix[keyAt..keyAt + 33], ix[msgAt..msgAt + msgLen]))
  }

  /** The fixed places the wallet insists on. */
  predicate StandardLayout(ix: seq<byte>) {
    |ix| >= 16 && ReadU16(ix, 2) == 16 && ReadU16(ix, 6) == 80 && ReadU16(ix, 10) == 114
  }

  lemma SplitCompare(ix: seq<byte>, at: nat, a: seq<byte>, b: seq<byte>)
    requires at + |a| + |b| <= |ix|
    ensures ix[at..at + |a|] == a && ix[at + |a|..at + |a| + |b|] == b <==> ix[at..at + |a| + |b|] == a + b
  {
    var n := at + |a| + |b|;
    assert ix[at..n] == ix[at..at + |a|] + ix[at + |a|..n];
    assert ix[at..n] == a + b ==> ix[at..n][..|a|] == a && ix[at..n][|a|..] == b;
  }

  /** `verify_secp256r1_instruction_data`: the precompile verified this very key and message. */
  method VerifyInstructionData(
      ix: seq<byte>, pubkey: seq<byte>, authData: seq<byte>, hash: Key) returns (r: Option<AuthError>)
    requires |pubkey| == 33
    ensures r.None? <==>
            StandardLayout(ix) && |ix| >= 146 && PrecompileReads(ix) == Some(Verified(pubkey, authData + hash))
    ensures r.Some? ==> r.value in {InvalidInstruction, InvalidPubkey, InvalidMessageHash}
  {
    if |ix| < 16 || ix[0] != 1 {
      return Some(InvalidInstruction);
    }
    if |ix| < 146 {
      return Some(InvalidInstruction);
    }
    if ReadU16(ix, 4) != 0xFFFF || ReadU16(ix, 8) != 0xFFFF || ReadU16(ix, 14) != 0xFFFF {
      return Some(InvalidInstruction);
    }
    if ReadU16(ix, 2) != 16 || ReadU16(ix, 6) != 80 || ReadU16(ix, 10) != 114 {
      return Some(InvalidInstruction);
    }
    var expected := |authData| + |hash|;
    if ReadU16(ix, 12) != expected || |ix| < 114 + expected {
      return Some(InvalidInstruction);
    }
    SplitCompare(ix, 114, authData, hash);
    if ix[80..113] != pubkey {
      return Some(InvalidPubkey);
    }
    if ix[114..114 + |authData|] != authData {
      return Some(InvalidMessageHash);
    }
    if ix[114 + |authData|..114 + expected] != hash {
      return Some(InvalidMessageHash);
    }
    r := None;
  }

  // ---------------------------------------------------------------------------
  // The challenge
  // ---------------------------------------------------------------------------

  /** What the challenge hash covers besides the assertion's own fourteen bytes. */
  datatype Intent = Intent(discriminator: byte, prefix: seq<byte>, signedPayload: seq<byte>, payer: Key, wallet: Key,
      counter: u32, program: Key)

  function Preimage(t: Intent): seq<byte> {
    [t.discriminator] + t.prefix + t.signedPayload + t.payer + t.wallet + ToLe(t.counter, 4) + t.program
  }

  lemma PreimageParts(t: Intent)
    requires |t.prefix| == 14
    ensures var p := Preimage(t); var n := |p|;
            && n == 115 + |t.signedPayload|
            && p[0] == t.discriminator && p[1..15] == t.prefix && p[15..n - 100] == t.signedPayload
            && p[n - 100..n - 68] == t.payer && p[n - 68..n - 36] == t.wallet
            && p[n - 36..n - 32] == ToLe(t.counter, 4) && p[n - 32..] == t.program
  {
  }

  /** The concatenation is unambiguous although one part of it has no length. */
  lemma PreimageDecodesUniquely(t: Intent, u: Intent)
    requires |t.prefix| == 14 && |u.prefix| == 14
    requires Preimage(t) == Preimage(u)
    ensures t == u
  {
    PreimageParts(t);
    PreimageParts(u);
    PowersOf256();
    FromToLe(t.counter, 4);
    FromToLe(u.counter, 4);
  }

  // ---------------------------------------------------------------------------
  // Authentication
  // ---------------------------------------------------------------------------

  datatype Instruction = Instruction(program: Key, data: seq<byte>)

  /** Everything `authenticate` sees of the transaction; `previous` is absent at index 0. */
  datatype Call = Call(
    clock: u64, stackHeight: nat, accounts: seq<Key>, payerSigns: bool, previous: Option<Instruction>,
    payload: seq<byte>, signedPayload: seq<byte>, discriminator: byte, program: Key)

  datatype AuthError =
    | InvalidAuthorityPayload | PermissionDenied | InvalidSignatureAge | ArithmeticOverflow | SignatureReused
    | NotEnoughAccountKeys | MissingRequiredSignature | InvalidMessage | InvalidAuthenticationKind
    | InvalidMessageHash | InvalidPubkey | InvalidInstruction

  function Counter(account: seq<byte>): u32
    requires |account| >= HEADER_LEN
  {
    ReadU32(account, COUNTER_AT)
  }

  function WalletOf(account: seq<byte>): Key
    requires |account| >= HEADER_LEN
  {
    account[WALLET_AT..HEADER_LEN]
  }

  function IntentOf(account: seq<byte>, c: Call, a: Assertion): Intent
    requires |account| >= HEADER_LEN && c.accounts != []
  {
    Intent(c.discriminator, Prefix(a), c.signedPayload, c.accounts[0], WalletOf(account), a.counter, c.program)
  }

  predicate Fresh(clock: u64, slot: u64) {
    slot <= clock < slot + MAX_SLOT_AGE
  }

  /** The client data answers the challenge of this intent. */
  predicate Answers(sha: Sha, cdj: seq<byte>, t: Intent) {
    && ClientData.Extract(cdj, TYPE) == Some(WEBAUTHN_GET)
    && ClientData.Extract(cdj, CHALLENGE) == Some(Base64Url.Encode(sha(Preimage(t))))
  }

  /** A present user, on the relying party the authority was registered for. */
  predicate FromAuthenticator(ad: seq<byte>, rpIdHash: seq<byte>) {
    |ad| >= AUTH_DATA_MIN_LEN && ad[32] % 2 == 1 && ad[..32] == rpIdHash
  }

  /** The message the passkey signed. */
  function SignedMessage(sha: Sha, a: Assertion): seq<byte> {
    a.authenticatorData + sha(a.clientDataJson)
  }

  predicate PrecompileRan(sha: Sha, c: Call, a: Assertion, pubkey: seq<byte>) {
    && a.sysvarIndex < |c.accounts| && c.accounts[a.sysvarIndex] == INSTRUCTIONS_ID
    && c.previous.Some? && c.previous.value.program == SECP256R1_ID
    && var ix := c.previous.value.data;
       StandardLayout(ix) && |ix| >= 146 && PrecompileReads(ix) == Some(Verified(pubkey, SignedMessage(sha, a)))
  }

  /** What an accepted authentication amounts to. */
  predicate Accepts(sha: Sha, account: seq<byte>, c: Call) {
    && ParseAssertion(c.payload).Some?
    && var a := ParseAssertion(c.payload).value;
    && c.stackHeight <= 1 && Fresh(c.clock, a.slot)
    && |account| >= FIXED_LEN
    && a.counter == Counter(account) + 1
    && c.accounts != [] && c.payerSigns
    && Answers(sha, a.clientDataJson, IntentOf(account, c, a))
    && FromAuthenticator(a.authenticatorData, account[RP_ID_HASH_AT..FIXED_LEN])
    && PrecompileRan(sha, c, a, account[PUBKEY_AT..RP_ID_HASH_AT])
  }

  /** The account after an accepted authentication. */
  function Advanced(account: seq<byte>): (r: seq<byte>)
    requires |account| >= HEADER_LEN && Counter(account) < U32_MAX
  {
    Splice(account, COUNTER_AT, ToLe(Counter(account) + 1, 4))
  }

  lemma AdvancedMoves(account: seq<byte>)
    requires |account| >= HEADER_LEN && Counter(account) < U32_MAX
    ensures |Advanced(account)| == |account|
    ensures Counter(Advanced(account)) == Counter(account) + 1 && WalletOf(Advanced(account)) == WalletOf(account)
    ensures Advanced(account)[12..] == account[12..]
  {
    PowersOf256();
    var le := ToLe(Counter(account) + 1, 4);
    FromToLe(Counter(account) + 1, 4);
    assert Advanced(account)[COUNTER_AT..COUNTER_AT + 4] == le;
  }

  /** Bitwise exclusive or. */
  function Xor(x: nat, y: nat): nat {
    if x == 0 && y == 0 then 0 else (x % 2 + y % 2) % 2 + 2 * Xor(x / 2, y / 2)
  }

  /** Bitwise or. */
  function Or(x: nat, y: nat): nat {
    if x == 0 && y == 0 then 0 else (if x % 2 == 0 && y % 2 == 0 then 0 else 1) + 2 * Or(x / 2, y / 2)
  }

  lemma {:induction false} XorIsZero(x: nat, y: nat)
    ensures Xor(x, y) == 0 <==> x == y
  {
    if x != 0 || y != 0 {
      XorIsZero(x / 2, y / 2);
    }
  }

  lemma {:induction false} OrIsZero(x: nat, y: nat)
    ensures Or(x, y) == 0 <==> x == 0 && y == 0
  {
    if x != 0 || y != 0 {
      OrIsZero(x / 2, y / 2);
    }
  }

  /** `ct_eq`: one accumulator over every pair of bytes, no early exit. */
  method CtEq(a: seq<byte>, b: seq<byte>) returns (r: bool)
    ensures r <==> a == b
  {
    if |a| != |b| {
      return false;
    }
    var acc: nat := 0;
    for i := 0 to |a|
      invariant acc == 0 <==> a[..i] == b[..i]
    {
      XorIsZero(a[i], b[i]);
      OrIsZero(acc, Xor(a[i], b[i]));
      assert a[..i + 1] == a[..i] + [a[i]] && b[..i + 1] == b[..i] + [b[i]];
      acc := Or(acc, Xor(a[i], b[i]));
    }
    r := acc == 0;
    assert a[..|a|] == a && b[..|b|] == b;
  }

  method CheckClientData(sha: Sha, cdj: seq<byte>, t: Intent) returns (r: Option<AuthError>)
    ensures r.None? <==> Answers(sha, cdj, t)
    ensures r.Some? ==> r.value in {InvalidMessage, InvalidAuthenticationKind, InvalidMessageHash}
  {
    var kind := ClientData.ExtractTopLevelStringField(cdj, TYPE);
    if kind.None? {
      return Some(InvalidMessage);
    }
    if kind.value != WEBAUTHN_GET {
      return Some(InvalidAuthenticationKind);
    }
    var challenge := ClientData.ExtractTopLevelStringField(cdj, CHALLENGE);
    if challenge.None? {
      return Some(InvalidMessage);
    }
    var expected := Base64Url.EncodeNoPad(sha(Preimage(t)));
    var same := CtEq(challenge.value, expected);
    r := if same then None else Some(InvalidMessageHash);
  }

  method CheckSignature(
      sha: Sha, c: Call, a: Assertion, pubkey: seq<byte>, rpIdHash: seq<byte>) returns (r: Option<AuthError>)
    requires |pubkey| == 33
    ensures r.None? <==> FromAuthenticator(a.authenticatorData, rpIdHash) && PrecompileRan(sha, c, a, pubkey)
    ensures r.Some? ==>
              r.value in {InvalidAuthorityPayload, PermissionDenied, InvalidPubkey, InvalidInstruction,
                  InvalidMessageHash}
  {
    var ad := a.authenticatorData;
    if |ad| < AUTH_DATA_MIN_LEN {
      return Some(InvalidAuthorityPayload);
    }
    if ad[32] % 2 == 0 {
      return Some(PermissionDenied);
    }
    if ad[..32] != rpIdHash {
      return Some(InvalidPubkey);
    }
    if a.sysvarIndex >= |c.accounts| {
      return Some(InvalidAuthorityPayload);
    }
    if c.accounts[a.sysvarIndex] != INSTRUCTIONS_ID || c.previous.None? || c.previous.value.program != SECP256R1_ID {
      return Some(InvalidInstruction);
    }
    r := VerifyInstructionData(c.previous.value.data, pubkey, ad, sha(a.clientDataJson));
  }

  method StoreCounter(data: array<byte>, v: u32)
    requires data.Length >= HEADER_LEN
    modifies data
    ensures data[..] == Splice(old(data[..]), COUNTER_AT, ToLe(v, 4))
  {
    var bytes := ToLe(v, 4);
    for i := 0 to 4
      invariant forall j :: 0 <= j < data.Length ==>
          data[j] == if COUNTER_AT <= j < COUNTER_AT + i then bytes[j - COUNTER_AT] else old(data[j])
    {
      data[COUNTER_AT + i] := bytes[i];
    }
  }

  predicate InTime(c: Call) {
    |c.payload| >= 18 && c.stackHeight <= 1 && Fresh(c.clock, ReadU64(c.payload, 0))
  }

  predicate InTurn(account: seq<byte>, c: Call) {
    |account| >= HEADER_LEN && |c.payload| >= 18 && ReadU32(c.payload, 8) == Counter(account) + 1
  }

  /** The slot window and the odometer. */
  method CheckTurn(account: seq<byte>, c: Call) returns (r: Option<AuthError>)
    ensures r.None? <==> InTime(c) && InTurn(account, c)
    ensures r == Some(InvalidSignatureAge) <==>
            |c.payload| >= 18 && c.stackHeight <= 1 && !Fresh(c.clock, ReadU64(c.payload, 0))
    ensures r == Some(ArithmeticOverflow) <==> InTime(c) && |account| >= HEADER_LEN && Counter(account) == U32_MAX
    ensures r == Some(SignatureReused) <==>
            InTime(c) && |account| >= HEADER_LEN && Counter(account) < U32_MAX && !InTurn(account, c)
  {
    if |c.payload| < 18 {
      return Some(InvalidAuthorityPayload);
    }
    var slot, submitted := ReadU64(c.payload, 0), ReadU32(c.payload, 8);
    if c.stackHeight > 1 {
      return Some(PermissionDenied);
    }
    if slot > c.clock || c.clock - slot >= MAX_SLOT_AGE {
      return Some(InvalidSignatureAge);
    }
    if |account| < HEADER_LEN {
      return Some(InvalidAuthorityPayload);
    }
    if Counter(account) == U32_MAX {
      return Some(ArithmeticOverflow);
    }
    r := if submitted == Counter(account) + 1 then None else Some(SignatureReused);
  }

  /** Everything after the odometer, on an account the odometer let through. */
  method CheckAssertion(sha: Sha, account: seq<byte>, c: Call) returns (r: Option<AuthError>)
    requires InTime(c) && InTurn(account, c)
    ensures r.None? <==> Accepts(sha, account, c)
    ensures r.Some? ==> r.value !in {InvalidSignatureAge, ArithmeticOverflow, SignatureReused}
  {
    if |account| < FIXED_LEN {
      return Some(InvalidAuthorityPayload);
    }
    if c.accounts == [] {
      return Some(NotEnoughAccountKeys);
    }
    if !c.payerSigns {
      return Some(MissingRequiredSignature);
    }
    var parsed := ParseAssertion(c.payload);
    if parsed.None? {
      return Some(InvalidAuthorityPayload);
    }
    var a := parsed.value;
    r := CheckClientData(sha, a.clientDataJson, IntentOf(account, c, a));
    if r.None? {
      r := CheckSignature(sha, c, a, account[PUBKEY_AT..RP_ID_HASH_AT], account[RP_ID_HASH_AT..FIXED_LEN]);
    }
  }

  /**
   `authenticate` on the authority account's bytes. It succeeds exactly on what `Accepts`
   describes, then only the four counter bytes move; a refusal moves nothing.
   */
  method Authenticate(sha: Sha, data: array<byte>, c: Call) returns (r: Option<AuthError>)
    modifies data
    ensures r.None? <==> Accepts(sha, old(data[..]), c)
    ensures r.None? ==> data[..] == Advanced(old(data[..]))
    ensures r.Some? ==> data[..] == old(data[..])
    ensures r == Some(SignatureReused) <==>
            InTime(c) && data.Length >= HEADER_LEN && Counter(old(data[..])) < U32_MAX && !InTurn(old(data[..]), c)
  {
    r := CheckTurn(data[..], c);
    if r.Some? {
      return;
    }
    r := CheckAssertion(sha, data[..], c);
    if r.None? {
      StoreCounter(data, Counter(data[..]) + 1);
    }
  }

  // ---------------------------------------------------------------------------
  // What a signed message can be accepted for
  // ---------------------------------------------------------------------------

  function AssertionOf(c: Call): Assertion
    requires ParseAssertion(c.payload).Some?
  {
    ParseAssertion(c.payload).value
  }

  /** Two uses of one signed message, or two strings with one hash. */
  ghost predicate BrokenHash(sha: Sha, p: seq<byte>, c: Call, q: seq<byte>, d: Call)
    requires Accepts(sha, p, c) && Accepts(sha, q, d)
  {
    var a, b := AssertionOf(c), AssertionOf(d);
    || Collides(sha, a.clientDataJson, b.clientDataJson)
    || Collides(sha, Preimage(IntentOf(p, c, a)), Preimage(IntentOf(q, d, b)))
  }

  lemma SameTail(a: seq<byte>, x: Key, b: seq<byte>, y: Key)
    requires a + x == b + y
    ensures a == b && x == y
  {
    assert |a| == |b|;
    assert (a + x)[..|a|] == a && (b + y)[..|b|] == b;
    assert (a + x)[|a|..] == x && (b + y)[|b|..] == y;
  }

  /**
   One signed message accepted twice, on any two accounts, was accepted for the same
   instruction, signed payload, payer, wallet, counter and program, under the same fourteen
   bytes: unless the hash was broken, it authorises one thing only.
   */
  lemma MessageBindsIntent(sha: Sha, p: seq<byte>, c: Call, q: seq<byte>, d: Call)
    requires Accepts(sha, p, c) && Accepts(sha, q, d)
    requires SignedMessage(sha, AssertionOf(c)) == SignedMessage(sha, AssertionOf(d))
    requires !BrokenHash(sha, p, c, q, d)
    ensures IntentOf(p, c, AssertionOf(c)) == IntentOf(q, d, AssertionOf(d))
    ensures c.payload == d.payload && WalletOf(p) == WalletOf(q) && Counter(p) == Counter(q)
  {
    var a, b := AssertionOf(c), AssertionOf(d);
    SameTail(a.authenticatorData, sha(a.clientDataJson), b.authenticatorData, sha(b.clientDataJson));
    var t, u := IntentOf(p, c, a), IntentOf(q, d, b);
    Base64Url.EncodeIsInjective(sha(Preimage(t)), sha(Preimage(u)));
    PreimageDecodesUniquely(t, u);
    ParsedIsEncoded(c.payload);
    ParsedIsEncoded(d.payload);
  }

  // ---------------------------------------------------------------------------
  // One authority account's lifetime
  // ---------------------------------------------------------------------------

  /**
   One thing that happens to the account: an authentication is tried, or an Execute rewrites
   the policy bytes behind the fixed part.
   */
  datatype Event = Try(call: Call) | PolicyWrite

  ghost predicate Step(sha: Sha, before: seq<byte>, e: Event, after: seq<byte>) {
    match e
    case Try(c) => if Accepts(sha, before, c) then after == Advanced(before) else after == before
    case PolicyWrite => |after| == |before| && |before| >= FIXED_LEN && after[..FIXED_LEN] == before[..FIXED_LEN]
  }

  /** From creation, where the counter is zero. */
  ghost predicate Lifetime(sha: Sha, states: seq<seq<byte>>, events: seq<Event>) {
    && |states| == |events| + 1
    && |states[0]| >= FIXED_LEN && Counter(states[0]) == 0
    && forall i :: 0 <= i < |events| ==> Step(sha, states[i], events[i], states[i + 1])
  }

  ghost predicate AcceptedAt(sha: Sha, states: seq<seq<byte>>, events: seq<Event>, i: nat)
    requires |states| == |events| + 1
  {
    i < |events| && events[i].Try? && Accepts(sha, states[i], events[i].call)
  }

  /** How many authentications were accepted before time `n`. */
  ghost function AcceptedBefore(sha: Sha, states: seq<seq<byte>>, events: seq<Event>, n: nat): nat
    requires |states| == |events| + 1 && n <= |events|
  {
    if n == 0 then 0
    else AcceptedBefore(sha, states, events, n - 1) + if AcceptedAt(sha, states, events, n - 1) then 1 else 0
  }

  lemma PolicyWriteKeepsHeader(before: seq<byte>, after: seq<byte>)
    requires |after| == |before| && |before| >= FIXED_LEN && after[..FIXED_LEN] == before[..FIXED_LEN]
    ensures Counter(after) == Counter(before) && WalletOf(after) == WalletOf(before)
  {
    assert before[..FIXED_LEN][COUNTER_AT..COUNTER_AT + 4] == before[COUNTER_AT..COUNTER_AT + 4];
    assert after[..FIXED_LEN][COUNTER_AT..COUNTER_AT + 4] == after[COUNTER_AT..COUNTER_AT + 4];
    assert before[..FIXED_LEN][WALLET_AT..HEADER_LEN] == before[WALLET_AT..HEADER_LEN];
    assert after[..FIXED_LEN][WALLET_AT..HEADER_LEN] == after[WALLET_AT..HEADER_LEN];
  }

  /** The stored counter is the number of accepted authentications: it never skips and never wraps. */
  lemma {:induction false} CounterCounts(sha: Sha, states: seq<seq<byte>>, events: seq<Event>, n: nat)
    requires Lifetime(sha, states, events) && n <= |events|
    ensures |states[n]| == |states[0]| && WalletOf(states[n]) == WalletOf(states[0])
    ensures Counter(states[n]) == AcceptedBefore(sha, states, events, n)
  {
    if n != 0 {
      CounterCounts(sha, states, events, n - 1);
      assert Step(sha, states[n - 1], events[n - 1], states[n]);
      match events[n - 1] {
        case Try(c) =>
          if Accepts(sha, states[n - 1], c) {
            AdvancedMoves(states[n - 1]);
          }
        case PolicyWrite => PolicyWriteKeepsHeader(states[n - 1], states[n]);
      }
    }
  }

  lemma {:induction false} AcceptedGrows(sha: Sha, states: seq<seq<byte>>, events: seq<Event>, m: nat, n: nat)
    requires |states| == |events| + 1 && m <= n <= |events|
    ensures AcceptedBefore(sha, states, events, m) <= AcceptedBefore(sha, states, events, n)
    decreases n
  {
    if m < n {
      AcceptedGrows(sha, states, events, m, n - 1);
    }
  }

  /** The k-th accepted authentication carries counter k, within 150 slots of the slot it signed. */
  lemma AcceptedCountersAreConsecutive(sha: Sha, states: seq<seq<byte>>, events: seq<Event>, i: nat)
    requires Lifetime(sha, states, events) && AcceptedAt(sha, states, events, i)
    ensures AssertionOf(events[i].call).counter == AcceptedBefore(sha, states, events, i) + 1
    ensures AssertionOf(events[i].call).counter == AcceptedBefore(sha, states, events, i + 1) <= U32_MAX
    ensures AssertionOf(events[i].call).slot <= events[i].call.clock < AssertionOf(events[i].call).slot + MAX_SLOT_AGE
  {
    CounterCounts(sha, states, events, i);
  }

  /** No signed message is accepted at two times of one account's life. */
  lemma NoReplay(sha: Sha, states: seq<seq<byte>>, events: seq<Event>, i: nat, j: nat)
    requires Lifetime(sha, states, events) && i < j
    requires AcceptedAt(sha, states, events, i) && AcceptedAt(sha, states, events, j)
    requires !BrokenHash(sha, states[i], events[i].call, states[j], events[j].call)
    ensures SignedMessage(sha, AssertionOf(events[i].call)) != SignedMessage(sha, AssertionOf(events[j].call))
    ensures AssertionOf(events[i].call).counter < AssertionOf(events[j].call).counter
  {
    AcceptedCountersAreConsecutive(sha, states, events, i);
    AcceptedCountersAreConsecutive(sha, states, events, j);
    AcceptedGrows(sha, states, events, i + 1, j);
    if SignedMessage(sha, AssertionOf(events[i].call)) == SignedMessage(sha, AssertionOf(events[j].call)) {
      MessageBindsIntent(sha, states[i], events[i].call, states[j], events[j].call);
    }
  }

  /** Nor on another wallet, whatever account and history it has there. */
  lemma NoOtherWallet(sha: Sha, p: seq<byte>, c: Call, q: seq<byte>, d: Call)
    requires Accepts(sha, p, c) && Accepts(sha, q, d) && !BrokenHash(sha, p, c, q, d)
    requires WalletOf(p) != WalletOf(q) || c.discriminator != d.discriminator || c.signedPayload != d.signedPayload
    ensures SignedMessage(sha, AssertionOf(c)) != SignedMessage(sha, AssertionOf(d))
  {
    if SignedMessage(sha, AssertionOf(c)) == SignedMessage(sha, AssertionOf(d)) {
      MessageBindsIntent(sha, p, c, q, d);
    }
  }

  // ---------------------------------------------------------------------------
  // Other authority accounts
  // ---------------------------------------------------------------------------

  /** The passkey and the relying party of an authority account. */
  function KeyAndParty(account: seq<byte>): seq<byte>
    requires |account| >= FIXED_LEN
  {
    account[PUBKEY_AT..FIXED_LEN]
  }

  /** The same account under another credential hash, as AddAuthority would write it for the same passkey. */
  function UnderCredential(account: seq<byte>, credential: Key): seq<byte>
    requires |account| >= FIXED_LEN
  {
    account[..HEADER_LEN] + credential + account[PUBKEY_AT..]
  }

  lemma OtherCredential(account: seq<byte>, credential: Key)
    requires |account| >= FIXED_LEN
    ensures var q := UnderCredential(account, credential);
            && |q| == |account| && q[..HEADER_LEN] == account[..HEADER_LEN] && q[HEADER_LEN..PUBKEY_AT] == credential
            && q[PUBKEY_AT..] == account[PUBKEY_AT..]
  {
  }

  lemma SameHeader(p: seq<byte>, q: seq<byte>)
    requires |p| >= FIXED_LEN && |q| >= FIXED_LEN && p[..HEADER_LEN] == q[..HEADER_LEN]
    ensures Counter(p) == Counter(q) && WalletOf(p) == WalletOf(q)
  {
    assert p[..HEADER_LEN] == p[0..HEADER_LEN] && q[..HEADER_LEN] == q[0..HEADER_LEN];
    SliceOfSlice(p, 0, HEADER_LEN, COUNTER_AT, COUNTER_AT + 4);
    SliceOfSlice(q, 0, HEADER_LEN, COUNTER_AT, COUNTER_AT + 4);
    SliceOfSlice(p, 0, HEADER_LEN, WALLET_AT, HEADER_LEN);
    SliceOfSlice(q, 0, HEADER_LEN, WALLET_AT, HEADER_LEN);
  }

  /** The two halves of the key material, together and apart. */
  lemma KeyMaterialSplits(p: seq<byte>, q: seq<byte>)
    requires |p| >= FIXED_LEN && |q| >= FIXED_LEN
    ensures KeyAndParty(p) == KeyAndParty(q) <==>
            p[PUBKEY_AT..RP_ID_HASH_AT] == q[PUBKEY_AT..RP_ID_HASH_AT] &&
                p[RP_ID_HASH_AT..FIXED_LEN] == q[RP_ID_HASH_AT..FIXED_LEN]
  {
    assert KeyAndParty(p) == p[PUBKEY_AT..RP_ID_HASH_AT] + p[RP_ID_HASH_AT..FIXED_LEN];
    assert KeyAndParty(q) == q[PUBKEY_AT..RP_ID_HASH_AT] + q[RP_ID_HASH_AT..FIXED_LEN];
    assert p[PUBKEY_AT..RP_ID_HASH_AT] == KeyAndParty(p)[..33] && q[PUBKEY_AT..RP_ID_HASH_AT] == KeyAndParty(q)[..33];
    assert p[RP_ID_HASH_AT..FIXED_LEN] == KeyAndParty(p)[33..] && q[RP_ID_HASH_AT..FIXED_LEN] == KeyAndParty(q)[33..];
  }

  /** Which accounts accept what `p` accepts. */
  predicate Twin(p: seq<byte>, q: seq<byte>)
    requires |p| >= FIXED_LEN && |q| >= FIXED_LEN
  {
    Counter(q) == Counter(p) && WalletOf(q) == WalletOf(p) && KeyAndParty(q) == KeyAndParty(p)
  }

  lemma TwinAccepts(sha: Sha, p: seq<byte>, q: seq<byte>, c: Call, clock: u64)
    requires Accepts(sha, p, c) && |q| >= FIXED_LEN && Twin(p, q) && Fresh(clock, AssertionOf(c).slot)
    ensures Accepts(sha, q, c.(clock := clock))
  {
    KeyMaterialSplits(p, q);
    assert IntentOf(q, c.(clock := clock), AssertionOf(c)) == IntentOf(p, c, AssertionOf(c));
  }

  /**
   What one account accepts, another accepts, then or later, exactly when that account has the
   same wallet, counter, passkey and relying party and the assertion is not too old: the
   challenge does not name the account. Unless the two challenges collide.
   */
  lemma AcceptedElsewhereIff(sha: Sha, p: seq<byte>, q: seq<byte>, c: Call, clock: u64)
    requires Accepts(sha, p, c) && |q| >= FIXED_LEN
    requires !Collides(sha, Preimage(IntentOf(p, c, AssertionOf(c))), Preimage(IntentOf(q, c, AssertionOf(c))))
    ensures Accepts(sha, q, c.(clock := clock)) <==> Twin(p, q) && Fresh(clock, AssertionOf(c).slot)
  {
    var d, a := c.(clock := clock), AssertionOf(c);
    if Twin(p, q) && Fresh(clock, a.slot) {
      TwinAccepts(sha, p, q, c, clock);
    }
    if Accepts(sha, q, d) {
      var t, u := IntentOf(p, c, a), IntentOf(q, c, a);
      assert IntentOf(q, d, a) == u;
      Base64Url.EncodeIsInjective(sha(Preimage(t)), sha(Preimage(u)));
      PreimageDecodesUniquely(t, u);
      KeyMaterialSplits(p, q);
    }
  }

  /**
   So single use does fail across accounts: for 150 slots, a second authority of the wallet for
   the same passkey takes it too, and so does an authority closed and added again.
   */
  lemma SecondAuthorityAccepts(sha: Sha, p: seq<byte>, c: Call, credential: Key, clock: u64)
    requires Accepts(sha, p, c) && Fresh(clock, AssertionOf(c).slot)
    ensures credential != p[HEADER_LEN..PUBKEY_AT] ==> UnderCredential(p, credential) != p
    ensures Accepts(sha, UnderCredential(p, credential), c.(clock := clock))
  {
    var q := UnderCredential(p, credential);
    OtherCredential(p, credential);
    SameHeader(p, q);
    assert KeyAndParty(p) == p[PUBKEY_AT..][..65] && KeyAndParty(q) == q[PUBKEY_AT..][..65];
    TwinAccepts(sha, p, q, c, clock);
  }

  /** What a passkey produced: its key and the message it signed. */
  function SignedBy(sha: Sha, account: seq<byte>, c: Call): (seq<byte>, seq<byte>)
    requires Accepts(sha, account, c)
  {
    (account[PUBKEY_AT..RP_ID_HASH_AT], SignedMessage(sha, AssertionOf(c)))
  }

  /** On accounts that are no twins, at any times of their lives, no assertion is accepted twice. */
  lemma NoReplayBetweenAccounts(
    sha: Sha, states: seq<seq<byte>>, events: seq<Event>, i: nat, others: seq<seq<byte>>, elsewhere: seq<Event>, j: nat)
    requires Lifetime(sha, states, events) && AcceptedAt(sha, states, events, i)
    requires Lifetime(sha, others, elsewhere) && AcceptedAt(sha, others, elsewhere, j)
    requires !BrokenHash(sha, states[i], events[i].call, others[j], elsewhere[j].call)
    requires !Twin(states[i], others[j])
    ensures SignedBy(sha, states[i], events[i].call) != SignedBy(sha, others[j], elsewhere[j].call)
  {
    AssertionFixesTwin(sha, states[i], events[i].call, others[j], elsewhere[j].call);
  }

  lemma AssertionFixesTwin(sha: Sha, p: seq<byte>, c: Call, q: seq<byte>, d: Call)
    requires Accepts(sha, p, c) && Accepts(sha, q, d) && !BrokenHash(sha, p, c, q, d)
    ensures SignedBy(sha, p, c) == SignedBy(sha, q, d) ==> Twin(p, q)
  {
    if SignedBy(sha, p, c) == SignedBy(sha, q, d) {
      MessageBindsIntent(sha, p, c, q, d);
      KeyMaterialSplits(p, q);
    }
  }

  /**
   In terms of histories: accounts of two wallets, of two passkeys or relying parties, or with
   different numbers of accepted authentications behind them, never accept one assertion.
   */
  lemma TwinsHaveEqualHistories(
    sha: Sha, states: seq<seq<byte>>, events: seq<Event>, i: nat, others: seq<seq<byte>>, elsewhere: seq<Event>, j: nat)
    requires Lifetime(sha, states, events) && i < |states| && Lifetime(sha, others, elsewhere) && j < |others|
    requires |states[i]| >= FIXED_LEN && |others[j]| >= FIXED_LEN && Twin(states[i], others[j])
    ensures AcceptedBefore(sha, states, events, i) == AcceptedBefore(sha, others, elsewhere, j)
    ensures WalletOf(states[0]) == WalletOf(others[0])
  {
    CounterCounts(sha, states, events, i);
    CounterCounts(sha, others, elsewhere, j);
  }
}
