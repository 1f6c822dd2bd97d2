/**
 What a passkey login is made of on the other side: the client's JSON document, the
 authenticator's data (section 6.1 of W3C Web Authentication Level 2), and the precompile
 instruction a client library builds. On these it is said exactly which logins are accepted.
 */
module Authenticator {
  import opened Bytes
  import opened Passkey
  import Base64Url
  import J = ClientData

  function Ascii(s: string): (r: seq<byte>)
    requires forall i :: 0 <= i < |s| ==> s[i] < 128 as char
    ensures |r| == |s| && forall i :: 0 <= i < |s| ==> r[i] == s[i] as int
  {
    seq(|s|, i requires 0 <= i < |s| => s[i] as int)
  }

  lemma Words()
    ensures TYPE == Ascii("type") && CHALLENGE == Ascii("challenge") && WEBAUTHN_GET == Ascii("webauthn.get")
  {
  }

  // ---------------------------------------------------------------------------
  // The precompile instruction
  // ---------------------------------------------------------------------------

  /** One signature: the offsets, each into the instruction itself, then signature, key and message. */
  function PrecompileData(
      sig: seq<byte>, key: seq<byte>, message: seq<byte>, pads: (byte, byte), tail: seq<byte>): seq<byte> {
    [1, pads.0, 16, 0, 255, 255, 80, 0, 255, 255, 114, 0] + ToLe(|message|, 2) + [255, 255]
    + sig + key + [pads.1] + message + tail
  }

  lemma PrecompilePieces(
      head: seq<byte>, len: seq<byte>, sig: seq<byte>, key: seq<byte>, pad: byte, message: seq<byte>, tail: seq<byte>,
      d: seq<byte>)
    requires |head| == 12 && |len| == 2 && |sig| == 64 && |key| == 33
    requires d == head + len + [255, 255] + sig + key + [pad] + message + tail
    ensures |d| == 114 + |message| + |tail|
    ensures d[..12] == head && d[12..14] == len && d[14..16] == [255, 255]
    ensures d[80..113] == key && d[114..114 + |message|] == message
  {
  }

  lemma TwoBytes(d: seq<byte>, at: nat)
    requires at + 2 <= |d|
    ensures ReadU16(d, at) == d[at] as int + 256 * (d[at + 1] as int)
  {
    var s := d[at..at + 2];
    assert s[1..][1..] == [] && FromLe(s[1..]) == s[1];
  }

  lemma OffsetsRead(d: seq<byte>, pad: byte)
    requires |d| >= 16 && d[..12] == [1, pad, 16, 0, 255, 255, 80, 0, 255, 255, 114, 0] && d[14..16] == [255, 255]
    ensures d[0] == 1 && StandardLayout(d)
    ensures ReadU16(d, 4) == 0xFFFF && ReadU16(d, 8) == 0xFFFF && ReadU16(d, 14) == 0xFFFF
  {
    var h := d[..12];
    assert forall i :: 0 <= i < 12 ==> d[i] == h[i];
    assert d[14] == d[14..16][0] && d[15] == d[14..16][1];
    TwoBytes(d, 2);
    TwoBytes(d, 4);
    TwoBytes(d, 6);
    TwoBytes(d, 8);
    TwoBytes(d, 10);
    TwoBytes(d, 14);
  }

  /** Such an instruction verifies its own key and message, and no other. */
  lemma PrecompileVerifies(sig: seq<byte>, key: seq<byte>, message: seq<byte>, pads: (byte, byte), tail: seq<byte>)
    requires |sig| == 64 && |key| == 33 && |message| < 0x1_0000
    ensures var d := PrecompileData(sig, key, message, pads, tail);
            && |d| == 114 + |message| + |tail| && StandardLayout(d)
            && PrecompileReads(d) == Some(Verified(key, message))
  {
    var d := PrecompileData(sig, key, message, pads, tail);
    PrecompilePieces([1, pads.0, 16, 0, 255, 255, 80, 0, 255, 255, 114, 0], ToLe(|message|, 2), sig, key, pads.1,
                     message, tail, d);
    OffsetsRead(d, pads.0);
    PowersOf256();
    FromToLe(|message|, 2);
    assert ReadU16(d, 12) == |message|;
  }

  // ---------------------------------------------------------------------------
  // A login
  // ---------------------------------------------------------------------------

  /** The bytes the challenge is the hash of. */
  function ChallengeBytes(account: seq<byte>, c: Call, a: Assertion): seq<byte>
    requires |account| >= 145 && c.accounts != []
  {
    [c.discriminator] + (ToLe(a.slot, 8) + ToLe(a.counter, 4) + [a.sysvarIndex, a.reserved]) + c.signedPayload
    + c.accounts[0] + account[16..48] + ToLe(a.counter, 4) + c.program
  }

  /** The document answers this challenge, for a login, and names both things without escapes. */
  ghost predicate AnswersIn(d: J.Document, challenge: seq<byte>) {
    && J.Answer(d.members, Ascii("type")) == Some(Ascii("webauthn.get"))
    && J.Answer(d.members, Ascii("challenge")) == Some(challenge)
  }

  /** The authenticator's data: a relying party, a present user, a signature count and what follows. */
  ghost predicate Present(ad: seq<byte>, rpIdHash: seq<byte>) {
    exists flags: byte, count: seq<byte>, rest: seq<byte> ::
      |count| == 4 && ad == rpIdHash + [flags] + count + rest && flags % 2 == 1
  }

  lemma PresentIff(ad: seq<byte>, rpIdHash: seq<byte>)
    requires |rpIdHash| == 32
    ensures FromAuthenticator(ad, rpIdHash) <==> Present(ad, rpIdHash)
  {
    if FromAuthenticator(ad, rpIdHash) {
      assert ad == rpIdHash + [ad[32]] + ad[33..37] + ad[37..];
    }
    if Present(ad, rpIdHash) {
      var flags: byte, count: seq<byte>, rest: seq<byte> :|
        |count| == 4 && ad == rpIdHash + [flags] + count + rest && flags % 2 == 1;
      assert ad[..32] == rpIdHash && ad[32] == flags;
    }
  }

  /**
   A login as client libraries build it is accepted if and only if it is top level and under 150
   slots old, carries the next count, and: the payer signs; the document answers the challenge of
   this very instruction, payload, payer, wallet, counter and program; the user was present at
   this relying party; and the precompile verified this passkey on the authenticator's data and
   the document's hash, with the sysvar where the payload says.
   */
  lemma AcceptsExactly(
    sha: Sha, account: seq<byte>, c: Call, a: Assertion, d: J.Document, program: Key, sig: seq<byte>, key: seq<byte>,
    message: seq<byte>, pads: (byte, byte), tail: seq<byte>)
    requires |account| >= 145 && Encodable(a) && c.payload == EncodeAssertion(a)
    requires J.DocumentText(d) && a.clientDataJson == J.Print(d)
    requires |sig| == 64 && |key| == 33 && |message| < 0x1_0000
    requires c.previous == Some(Instruction(program, PrecompileData(sig, key, message, pads, tail)))
    ensures Accepts(sha, account, c) <==>
            && c.stackHeight <= 1 && a.slot <= c.clock && c.clock - a.slot < 150
            && a.counter as int == ReadU32(account, 8) + 1
            && c.accounts != [] && c.payerSigns
            && AnswersIn(d, Base64Url.Encode(sha(ChallengeBytes(account, c, a))))
            && Present(a.authenticatorData, account[113..145])
            && a.sysvarIndex < |c.accounts| && c.accounts[a.sysvarIndex] == INSTRUCTIONS_ID
            && program == SECP256R1_ID && key == account[80..113]
            && message == a.authenticatorData + sha(a.clientDataJson)
  {
    PayloadIsAssertion(c.payload, a);
    PrecompileVerifies(sig, key, message, pads, tail);
    PresentIff(a.authenticatorData, account[113..145]);
    Words();
    J.ScannerDecidesEveryObject(d, TYPE);
    J.ScannerDecidesEveryObject(d, CHALLENGE);
    if c.accounts != [] {
      assert Preimage(IntentOf(account, c, a)) == ChallengeBytes(account, c, a);
    }
  }
}
