/**
 The bytes of the program's accounts (`state/authority.rs`, `state/session.rs`, `state/wallet.rs`):
 what the Execute processor makes of the images of a machine's records. A policy is found exactly
 where there is one, for sessions and for authorities, and who may sign is who the machine lets act.
 */
module Layout {
  import opened Bytes
  import opened Chain
  import opened Registry
  import opened WalletProgram
  import Execute
  import PolicyEngine
  import C = Compact
  import P = Passkey
  import T = TokenAccounts

  function TypeByte(kind: Kind): byte {
    if kind.Ed25519? then 0 else 1
  }

  function KeyMaterial(kind: Kind): seq<byte> {
    match kind
    case Ed25519(pubkey) => pubkey
    case Secp256r1(credential, passkey, rpIdHash) => credential + passkey + rpIdHash
  }

  /** The 48-byte header. */
  function Header(c: Content, bump: byte, wallet: Key): (h: seq<byte>)
    requires c.Authority?
    ensures |h| == 48
  {
    [0x22, TypeByte(c.kind), c.role, bump, 1, 0, 0, 0]
    + ToLe(c.counter, 4) + ToLe(|c.policy|, 2) + [0, 0] + wallet
  }

  /** The account as the program writes it: header, key material, policy. */
  function Image(c: Content, bump: byte, wallet: Key): seq<byte>
    requires c.Authority?
  {
    Header(c, bump, wallet) + KeyMaterial(c.kind) + c.policy
  }

  lemma ImageParts(c: Content, bump: byte, wallet: Key)
    requires c.Authority? && Sized(c.kind) && |c.policy| < 0x1_0000
    ensures var m := Image(c, bump, wallet);
            && m[0] == 0x22 && m[1] == TypeByte(c.kind) && m[2] == c.role
            && |m| == AuthoritySpace(c.kind) + |c.policy|
            && m[AuthoritySpace(c.kind)..] == c.policy
            && ReadU16(m, 12) == |c.policy|
  {
    var m, h := Image(c, bump, wallet), Header(c, bump, wallet);
    assert m[12..14] == h[12..14] == ToLe(|c.policy|, 2);
    PowersOf256();
    FromToLe(|c.policy|, 2);
  }

  /**
   In every reachable state an authority is a Delegate exactly when its header's `policy_len` is
   not zero, and exactly when `PolicyLocation` finds a policy: the one it was given.
   */
  lemma DelegateIffPolicy(r: Run, n: nat, k: Address, bump: byte, wallet: Key)
    requires IsRun(r) && Initial(r.states[0]) && n < |r.states| && At(r.states[n].data, k).Authority?
    ensures var c := At(r.states[n].data, k);
            var m := Image(c, bump, wallet);
            && |m| >= 14
            && (c.role == DELEGATE <==> ReadU16(m, 12) != 0)
            && (c.role == DELEGATE <==> Execute.PolicyAt(m).Some?)
            && (c.role == DELEGATE ==> m[Execute.PolicyAt(m).value..] == c.policy && PolicyEngine.Runnable(c.policy))
  {
    InvReached(r, n);
    assert Shaped(r.states[n].data, k);
    ImageParts(At(r.states[n].data, k), bump, wallet);
  }

  // ---------------------------------------------------------------------------
  // Sessions
  // ---------------------------------------------------------------------------

  /** The account as CreateSession writes it: an 80-byte header, then the policy. */
  function SessionImage(c: Content, bump: byte, wallet: Key): seq<byte>
    requires c.Session?
  {
    [0x23, bump, 1, 0, 0, 0, 0, 0] + wallet + c.key + ToLe(c.expiresAt, 8) + c.policy
  }

  lemma SessionParts(c: Content, bump: byte, wallet: Key)
    requires c.Session?
    ensures var m := SessionImage(c, bump, wallet);
            && |m| == 80 + |c.policy| && m[0] == 0x23
            && m[8..40] == wallet && m[40..72] == c.key && m[80..] == c.policy
            && ReadU64(m, 72) == c.expiresAt
  {
    var m := SessionImage(c, bump, wallet);
    assert m[72..80] == ToLe(c.expiresAt, 8);
    PowersOf256();
    FromToLe(c.expiresAt, 8);
  }

  /**
   In every reachable state the policy of a session is found exactly when it has one, and is the
   one it was given, and the session's key is the one inner calls are restricted to.
   */
  lemma SessionPolicyFound(r: Run, n: nat, k: Address, bump: byte, wallet: Key)
    requires IsRun(r) && Initial(r.states[0]) && n < |r.states| && At(r.states[n].data, k).Session?
    ensures var c := At(r.states[n].data, k);
            var m := SessionImage(c, bump, wallet);
            && (Execute.PolicyAt(m).Some? <==> |c.policy| > 0)
            && (|c.policy| > 0 ==> Execute.PolicyAt(m).value <= |m| && m[Execute.PolicyAt(m).value..] == c.policy)
            && Execute.PolicySound(m)
            && Execute.SessionOf(m) == Some(c.key)
  {
    InvReached(r, n);
    assert Shaped(r.states[n].data, k);
    SessionParts(At(r.states[n].data, k), bump, wallet);
  }

  /** The transaction as Execute sees it, and as the state machine does. */
  ghost predicate SameTx(
      tx: Tx, list: C.Listing, env: Execute.Env, key: Key, w: Address, asked: Key, home: Address, wallet: Key) {
    && (env.stackHeight <= 1 <==> tx.topLevel) && (key in list.signers <==> User(key) in tx.signers)
    && (asked == wallet <==> w == home)
  }

  /** A session's account lets an Execute through exactly when the machine lets the session act. */
  lemma SessionSignsIff(
    s: State, tx: Tx, w: Address, k: Address, bump: byte, wallet: Key, asked: Key,
    sha: Sha, programId: Key, list: C.Listing, bytes: seq<byte>, env: Execute.Env)
    requires At(s.data, k).Session?
    requires SameTx(tx, list, env, At(s.data, k).key, w, asked, At(s.data, k).wallet, wallet)
    ensures Execute.SignerOk(sha, SessionImage(At(s.data, k), bump, wallet), programId, asked, list, bytes, env, s.slot)
       <==> SessionActs(s, tx, w, k)
  {
    SessionParts(At(s.data, k), bump, wallet);
  }

  // ---------------------------------------------------------------------------
  // Authorities
  // ---------------------------------------------------------------------------

  /** Every field is where its reader looks for it. */
  lemma AuthorityFields(c: Content, bump: byte, wallet: Key)
    requires c.Authority? && Sized(c.kind) && c.counter <= U32_MAX
    ensures var m := Image(c, bump, wallet);
            && |m| >= AuthoritySpace(c.kind)
            && m[0] == 0x22 && m[1] == TypeByte(c.kind) && m[4] == 1 && m[16..48] == wallet
            && P.Counter(m) as int == c.counter && P.WalletOf(m) == wallet
            && (c.kind.Ed25519? ==> m[48..80] == c.kind.pubkey)
            && (c.kind.Secp256r1? ==> m[80..113] == c.kind.passkey && m[113..145] == c.kind.rpIdHash)
  {
    var m, h := Image(c, bump, wallet), Header(c, bump, wallet);
    assert m[8..12] == h[8..12] == ToLe(c.counter, 4);
    assert m[16..48] == h[16..48] == wallet;
    PowersOf256();
    FromToLe(c.counter, 4);
  }

  /** A key authority's account lets an Execute through exactly when the machine says it authenticates. */
  lemma KeySignsIff(
    s: State, tx: Tx, w: Address, k: Address, bump: byte, wallet: Key, asked: Key,
    sha: Sha, programId: Key, list: C.Listing, bytes: seq<byte>, env: Execute.Env)
    requires At(s.data, k).Authority? && At(s.data, k).kind.Ed25519? && At(s.data, k).counter <= U32_MAX
    requires SameTx(tx, list, env, At(s.data, k).kind.pubkey, w, asked, At(s.data, k).wallet, wallet)
    ensures Execute.SignerOk(sha, Image(At(s.data, k), bump, wallet), programId, asked, list, bytes, env, s.slot)
       <==> Authenticates(s, tx, ToExecute, w, k)
  {
    AuthorityFields(At(s.data, k), bump, wallet);
  }

  /** A passkey's does exactly when the wallet is its own and the assertion holds. */
  lemma PasskeySignsIff(
    c: Content, bump: byte, wallet: Key, asked: Key, sha: Sha, programId: Key, list: C.Listing, bytes: seq<byte>,
    env: Execute.Env, slot: u64)
    requires c.Authority? && c.kind.Secp256r1? && Sized(c.kind) && c.counter <= U32_MAX
    ensures var m := Image(c, bump, wallet);
            Execute.SignerOk(sha, m, programId, asked, list, bytes, env, slot) <==>
            asked == wallet && Execute.AssertionHolds(sha, m, programId, list, bytes, env, slot)
  {
    AuthorityFields(c, bump, wallet);
  }

  lemma SpliceFour(a: seq<byte>, x: seq<byte>, y: seq<byte>, b: seq<byte>)
    requires |a| == 8 && |x| == 4 && |y| == 4
    ensures Splice(a + x + b, 8, y) == a + y + b
  {
  }

  /** What is before and after the counter in an authority's account. */
  function Front(c: Content, bump: byte): seq<byte>
    requires c.Authority?
  {
    [0x22, TypeByte(c.kind), c.role, bump, 1, 0, 0, 0]
  }

  function Back(c: Content, wallet: Key): seq<byte>
    requires c.Authority?
  {
    ToLe(|c.policy|, 2) + [0, 0] + wallet + KeyMaterial(c.kind) + c.policy
  }

  lemma AroundCounter(c: Content, bump: byte, wallet: Key)
    requires c.Authority?
    ensures Image(c, bump, wallet) == Front(c, bump) + ToLe(c.counter, 4) + Back(c, wallet)
  {
  }

  lemma SplicedImage(c: Content, bump: byte, wallet: Key)
    requires c.Authority? && c.kind.Secp256r1?
    ensures |Image(c, bump, wallet)| >= 12
    ensures Splice(Image(c, bump, wallet), 8, ToLe(c.counter + 1, 4)) == Image(Ticked(c), bump, wallet)
  {
    AroundCounter(c, bump, wallet);
    AroundCounter(Ticked(c), bump, wallet);
    SpliceFour(Front(c, bump), ToLe(c.counter, 4), ToLe(c.counter + 1, 4), Back(c, wallet));
  }

  lemma HeaderReads(c: Content, bump: byte, wallet: Key)
    requires c.Authority? && Sized(c.kind) && c.counter <= U32_MAX
    ensures var m := Image(c, bump, wallet);
            |m| >= 48 && m[0] == 0x22 && m[1] == TypeByte(c.kind) && P.Counter(m) as int == c.counter
  {
    AuthorityFields(c, bump, wallet);
  }

  lemma OpenedSplices(m: seq<byte>, n: nat)
    requires |m| >= 48 && m[0] == 0x22 && m[1] <= 1 && P.Counter(m) as int == n < U32_MAX
    ensures Execute.Opened(m) == if m[1] == 1 then Splice(m, 8, ToLe(n + 1, 4)) else m
  {
  }

  /** And what authenticating leaves in the account is the image of the record with its odometer moved. */
  lemma OpenedIsTicked(c: Content, bump: byte, wallet: Key)
    requires c.Authority? && Sized(c.kind) && c.counter < U32_MAX
    ensures Execute.Opened(Image(c, bump, wallet)) == Image(Ticked(c), bump, wallet)
  {
    HeaderReads(c, bump, wallet);
    OpenedSplices(Image(c, bump, wallet), c.counter);
    if c.kind.Secp256r1? {
      SplicedImage(c, bump, wallet);
    }
  }

  // ---------------------------------------------------------------------------
  // Wallets
  // ---------------------------------------------------------------------------

  function WalletImage(c: Content, bump: byte): seq<byte>
    requires c.Wallet?
  {
    [0x21, bump, 1, 0] + ToLe(c.ownerCount, 4)
  }

  /** A wallet's account passes Execute's check of it, and holds the owner count. */
  lemma WalletReads(c: Content, bump: byte)
    requires c.Wallet? && c.ownerCount <= U32_MAX
    ensures Execute.HeaderOk(WalletImage(c, bump), Execute.DISC_WALLET, 2, 8)
    ensures P.ReadU32(WalletImage(c, bump), 4) as int == c.ownerCount
  {
    var m := WalletImage(c, bump);
    assert m[4..8] == ToLe(c.ownerCount, 4);
    PowersOf256();
    FromToLe(c.ownerCount, 4);
  }

  /**
   Execute's first checks pass exactly for a signing payer, a wallet of this program, a writable
   account of this program as signer and a vault: whatever the wallet's owner count.
   */
  lemma PreflightExactly(programId: Key, list: C.Listing, bank: T.Bank, c: Content, bump: byte)
    requires c.Wallet? && |list.keys| >= 4 && list.keys[1] in bank && bank[list.keys[1]].data == WalletImage(c, bump)
    ensures Execute.Preflight(programId, list, bank).None? <==>
            && list.keys[0] in list.signers && bank[list.keys[1]].owner == programId
            && list.keys[2] in bank && bank[list.keys[2]].owner == programId && list.keys[2] in list.writable
            && list.keys[3] in bank
  {
    assert WalletImage(c, bump)[0] == 0x21 && WalletImage(c, bump)[2] == 1;
  }
}
