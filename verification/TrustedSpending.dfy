/**
 Who can spend from a wallet, and what it takes for an outsider to become able to: an authority
 makes authorities, sessions and deferred authorizations; those make the vault sign; the
 vault's signature makes token grants. Where trusted actors grant nothing to outsiders, each
 level that is clean stays clean once the levels above it are.
 */
module TrustedSpending {
  import opened Bytes
  import opened Chain
  import opened Registry
  import opened WalletProgram
  import opened Escalation

  /**
   Whom the caller trusts: its own passkey authority, and the Ed25519 keys it vouches for.
   `blessed` are the hash pairs trusted actors authorize; `mints` are the watched ones.
   */
  datatype Trust = Trust(wallet: Address, own: Address, passkey: seq<byte>, keys: set<Key>, mints: set<Key>,
      blessed: set<(Key, Key)>)

  function Vault(T: Trust): Address {
    VaultKey(T.wallet)
  }

  predicate TrustedKind(T: Trust, k: Address, kind: Kind) {
    match kind
    case Ed25519(pubkey) => pubkey in T.keys
    case Secp256r1(_, passkey, _) => k == T.own && passkey == T.passkey
  }

  predicate TrustedAddress(T: Trust, a: Address) {
    a.User? && a.id in T.keys
  }

  // ---------------------------------------------------------------------------
  // What the reads look for
  // ---------------------------------------------------------------------------

  predicate OtherAuthority(T: Trust, k: Address, c: Content) {
    c.Authority? && c.wallet == T.wallet && !TrustedKind(T, k, c.kind)
  }

  /** An untrusted session that was not over at `slot`. */
  predicate OtherSession(T: Trust, slot: nat, c: Content) {
    c.Session? && c.wallet == T.wallet && c.expiresAt >= slot && c.key !in T.keys
  }

  /** A deferred authorization not over at `slot` that no trusted actor stands behind. */
  predicate OtherDeferred(T: Trust, slot: nat, c: Content) {
    c.Deferred? && c.wallet == T.wallet && c.expiresAt >= slot && (c.instructionsHash, c.accountsHash) !in T.blessed
  }

  /** A right held by someone else than the vault and the trusted keys. */
  predicate OtherGrantee(T: Trust, g: Option<Address>) {
    g.Some? && g.value != Vault(T) && !TrustedAddress(T, g.value)
  }

  /** A vault token account someone else can take from. */
  predicate Exposed(T: Trust, c: Content) {
    c.Token? && c.holder == Vault(T) && (OtherGrantee(T, c.delegate) || (c.native && OtherGrantee(T, c.closer)))
  }

  /** The vault's canonical account for a watched mint. */
  predicate Watched(T: Trust, k: Address) {
    k.AtaKey? && k.holder == Vault(T) && k.mint in T.mints
  }

  predicate Lost(T: Trust, d: Records, k: Address) {
    Watched(T, k) && HandedAway(d, k) && !TrustedAddress(T, At(d, k).holder)
  }

  predicate Bad(T: Trust, d: Records, k: Address) {
    Exposed(T, At(d, k)) || Lost(T, d, k)
  }

  /** The account is neither newly exposed nor newly lost. */
  predicate NoNewGrant(T: Trust, s: Records, t: Records, k: Address) {
    && (Exposed(T, At(t, k)) ==> Exposed(T, At(s, k)))
    && (Lost(T, t, k) ==> Lost(T, s, k))
  }

  // ---------------------------------------------------------------------------
  // Trusted actors grant nothing to outsiders
  // ---------------------------------------------------------------------------

  /** A trusted authority of the wallet authenticated this. */
  predicate TrustedActs(T: Trust, s: State, tx: Tx, i: Instr) {
    && Actor(i).Some? && Authenticates(s, tx, OrderOf(i), T.wallet, Actor(i).value)
    && TrustedKind(T, Actor(i).value, At(s.data, Actor(i).value).kind)
  }

  predicate GrantsTrusted(T: Trust, e: Edit) {
    match e
    case Grant(w, kind, _, _) => TrustedKind(T, AuthorityAt(w, kind), kind)
    case Swap(w, _, kind) => TrustedKind(T, AuthorityAt(w, kind), kind)
    case Open(_, key, _, _) => key in T.keys
    case Promise(_, _, _, _, ih, ah, _) => (ih, ah) in T.blessed
    case _ => true
  }

  /** The vault signs for a trusted authority or session, or for what one of them authorized. */
  predicate TrustedExec(T: Trust, s: State, tx: Tx, i: Instr) {
    || (i.Execute? && i.wallet == T.wallet
        && (TrustedActs(T, s, tx, i) || (SessionActs(s, tx, T.wallet, i.actor) && At(s.data, i.actor).key in T.keys)))
    || (i.ExecuteDeferred? && i.wallet == T.wallet && (i.instructionsHash, i.accountsHash) in T.blessed)
  }

  function SignersOf(tx: Tx, i: Instr): set<Address> {
    if i.Execute? || i.ExecuteDeferred? then InnerSigners(tx, i.wallet)
    else if i.MigrateWallet? then tx.signers + {i.vault}
    else tx.signers
  }

  /**
   A trusted key signs that has a say on the account: the delegate or close authority of one the
   vault holds, or the holder of a watched one it does not.
   */
  predicate TrustedParty(T: Trust, d: Records, signers: set<Address>, k: Address) {
    || (At(d, k).Token? && At(d, k).holder == Vault(T) && TrustedGrantee(T, signers, At(d, k)))
    || (Watched(T, k) && HandedAway(d, k) && TrustedAddress(T, At(d, k).holder) && At(d, k).holder in signers)
  }

  predicate TrustedGrantee(T: Trust, signers: set<Address>, c: Content) {
    && c.Token?
    && ((Signs(signers, c.delegate) && TrustedAddress(T, c.delegate.value))
        || (Signs(signers, c.closer) && TrustedAddress(T, c.closer.value)))
  }

  /** What a trusted actor does hands nothing of the wallet to an outsider. */
  ghost predicate Honest(T: Trust, s: State, tx: Tx, i: Instr, t: State) {
    && (TrustedActs(T, s, tx, i) && Closing(s, tx, i).Some? ==> GrantsTrusted(T, Closing(s, tx, i).value))
    && (TrustedExec(T, s, tx, i) ==>
          && (At(s.data, Vault(T)).Empty? ==> At(t.data, Vault(T)).Empty?)
          && (forall k :: NoNewGrant(T, s.data, t.data, k)))
    && (forall k :: TrustedParty(T, s.data, SignersOf(tx, i), k) ==> NoNewGrant(T, s.data, t.data, k))
  }

  // ---------------------------------------------------------------------------
  // Records: where each one comes from
  // ---------------------------------------------------------------------------

  /** The record an edit adds. */
  function Added(e: Edit): Option<(Address, Content)> {
    match e
    case Birth(w, kind) => Some((AuthorityAt(w, kind), Born(w, kind, OWNER, [])))
    case Grant(w, kind, role, policy) => Some((AuthorityAt(w, kind), Born(w, kind, role, policy)))
    case Swap(w, _, kind) => Some((AuthorityAt(w, kind), Born(w, kind, OWNER, [])))
    case Open(w, key, expiresAt, policy) => Some((SessionKey(w, key), Session(w, key, expiresAt, policy)))
    case Promise(w, authority, counter, payer, ih, ah, expiresAt) =>
      Some((DeferredKey(w, authority, counter), Deferred(w, authority, payer, ih, ah, expiresAt)))
    case _ => None
  }

  /** The record an edit adds is there afterwards. */
  lemma EditAdds(d: Records, e: Edit)
    requires Fine(d, e) && Added(e).Some?
    ensures At(Do(d, e), Added(e).value.0) == Added(e).value.1
  {
  }

  /** Elsewhere an edit that adds one leaves records as they were. */
  lemma EditElsewhere(d: Records, e: Edit, k: Address)
    requires Fine(d, e) && Added(e).Some? && Added(e).value.0 != k && Homed(At(Do(d, e), k))
    ensures At(Do(d, e), k) == At(d, k)
  {
  }

  lemma EditOrigin(d: Records, e: Edit, w: Address, k: Address)
    requires Fine(d, e) && On(At(Do(d, e), k), w)
    ensures || (On(At(d, k), w) && SameRights(At(d, k), At(Do(d, e), k)))
            || (AddsTo(e, w) && Added(e) == Some((k, At(Do(d, e), k))))
  {
    if !AddsTo(e, w) {
      EditAddsNothing(d, e, w, k);
    } else if Added(e).value.0 == k {
      EditAdds(d, e);
    } else {
      EditElsewhere(d, e, k);
    }
  }

  lemma Origin(s: State, tx: Tx, i: Instr, t: State, w: Address, k: Address)
    requires Step(s, tx, i, t) && Inv(s.data) && On(At(t.data, k), w)
    ensures || (On(At(s.data, k), w) && SameRights(At(s.data, k), At(t.data, k)))
            || (Closing(s, tx, i).Some? && AddsTo(Closing(s, tx, i).value, w) &&
                Added(Closing(s, tx, i).value) == Some((k, At(t.data, k))))
  {
    if Closing(s, tx, i).Some? {
      ClosingFine(s, tx, i);
      EditOrigin(Between(s, i), Closing(s, tx, i).value, w, k);
      if Added(Closing(s, tx, i).value) == Some((k, At(t.data, k))) && AddsTo(Closing(s, tx, i).value, w) {
        return;
      }
    }
    NothingBetween(s, tx, i, w, k);
    SameRightsTrans(At(s.data, k), At(Between(s, i), k), At(t.data, k));
  }

  ghost predicate AuthoritiesClean(T: Trust, d: Records) {
    forall k :: !OtherAuthority(T, k, At(d, k))
  }

  /** No untrusted session, and no deferred authorization without a trusted actor behind it, lasts to slot `x`. */
  ghost predicate OthersOver(T: Trust, x: nat, d: Records) {
    && (forall k :: !OtherSession(T, x, At(d, k)))
    && (forall k :: !OtherDeferred(T, x, At(d, k)))
  }

  /** With only trusted authorities on the wallet, whatever is added to it is trusted. */
  lemma AddedIsTrusted(T: Trust, s: State, tx: Tx, i: Instr, t: State)
    requires Step(s, tx, i, t) && IsWallet(s, T.wallet) && AuthoritiesClean(T, s.data) && Honest(T, s, tx, i, t)
    requires Closing(s, tx, i).Some? && AddsTo(Closing(s, tx, i).value, T.wallet)
    ensures GrantsTrusted(T, Closing(s, tx, i).value)
  {
    ActorNeeded(s, tx, i, T.wallet);
    assert !OtherAuthority(T, Actor(i).value, At(s.data, Actor(i).value));
  }

  lemma SlotsRise(s: State, tx: Tx, i: Instr, t: State)
    requires Step(s, tx, i, t)
    ensures s.slot <= t.slot
  {
  }

  lemma RecordsStayClean(T: Trust, s: State, tx: Tx, i: Instr, t: State, k: Address, x: nat)
    requires Step(s, tx, i, t) && Inv(s.data) && IsWallet(s, T.wallet)
    requires AuthoritiesClean(T, s.data) && Honest(T, s, tx, i, t)
    ensures !OtherAuthority(T, k, At(t.data, k))
    ensures OtherSession(T, x, At(t.data, k)) ==> OtherSession(T, x, At(s.data, k))
    ensures OtherDeferred(T, x, At(t.data, k)) ==> OtherDeferred(T, x, At(s.data, k))
  {
    assert !OtherAuthority(T, k, At(s.data, k));
    if On(At(t.data, k), T.wallet) {
      Origin(s, tx, i, t, T.wallet, k);
      if Closing(s, tx, i).Some? && AddsTo(Closing(s, tx, i).value, T.wallet) {
        AddedIsTrusted(T, s, tx, i, t);
      }
    }
  }

  // ---------------------------------------------------------------------------
  // How long a record can last
  // ---------------------------------------------------------------------------

  /** Sessions and deferred authorizations end after slot 0, and within the longest session from now. */
  predicate InTerm(slot: nat, c: Content) {
    c.Session? || c.Deferred? ==> 1 <= c.expiresAt <= slot + MAX_SESSION_SLOTS
  }

  lemma OpenedInTerm(s: State, tx: Tx, w: Address, opener: Address, key: Key, expiresAt: u64, policy: seq<byte>)
    requires MayOpen(s, tx, w, opener, key, expiresAt, policy)
    ensures 0 < expiresAt <= s.slot + MAX_SESSION_SLOTS
  {
  }

  lemma PromisedInTerm(s: State, tx: Tx, w: Address, authority: Address, ih: Key, ah: Key, offset: nat)
    requires MayAuthorize(s, tx, w, authority, ih, ah, offset)
    ensures 0 < s.slot + offset <= s.slot + MAX_SESSION_SLOTS && s.slot + offset <= U64_MAX
  {
  }

  lemma AddedInTerm(s: State, tx: Tx, i: Instr)
    requires Enabled(s, tx, i) && Closing(s, tx, i).Some? && Added(Closing(s, tx, i).value).Some?
    ensures InTerm(s.slot, Added(Closing(s, tx, i).value).value.1)
  {
    if i.CreateSession? {
      OpenedInTerm(s, tx, i.wallet, i.authorizer, i.key, i.expiresAt, i.policy);
    } else if i.Authorize? {
      PromisedInTerm(s, tx, i.wallet, i.authority, i.instructionsHash, i.accountsHash, i.expiryOffset);
    }
  }

  lemma InTermAfter(s: State, tx: Tx, i: Instr, t: State, k: Address)
    requires Step(s, tx, i, t) && Inv(s.data) && InTerm(s.slot, At(s.data, k))
    ensures InTerm(t.slot, At(t.data, k))
  {
    SlotsRise(s, tx, i, t);
    if Homed(At(t.data, k)) {
      Origin(s, tx, i, t, At(t.data, k).wallet, k);
      if Closing(s, tx, i).Some? && Added(Closing(s, tx, i).value).Some? {
        AddedInTerm(s, tx, i);
      }
    }
  }

  lemma {:induction false} InTermReached(r: Run, n: nat, k: Address)
    requires IsRun(r) && Initial(r.states[0]) && n < |r.states|
    ensures InTerm(r.states[n].slot, At(r.states[n].data, k))
  {
    if n > 0 {
      InTermReached(r, n - 1, k);
      InvReached(r, n - 1);
      assert StepAt(r, n - 1);
      InTermAfter(r.states[n - 1], r.txs[n - 1], r.instrs[n - 1], r.states[n], k);
    }
  }

  // ---------------------------------------------------------------------------
  // Tokens and the vault, step by step
  // ---------------------------------------------------------------------------

  ghost predicate TokensSame(d: Records, e: Records) {
    forall k :: At(d, k).Token? || At(e, k).Token? ==> At(d, k) == At(e, k)
  }

  lemma EditTokens(d: Records, e: Edit)
    requires Fine(d, e)
    ensures TokensSame(d, Do(d, e))
  {
  }

  lemma RulesCarry(s: Records, s1: Records, t1: Records, t: Records, signers: set<Address>)
    requires TokensSame(s, s1) && TokensSame(t1, t) && TokenRules(s1, t1, signers)
    ensures TokenRules(s, t, signers)
  {
    forall k | At(s, k).Token? && At(s, k).holder !in signers
      ensures HeldWithout(signers, At(s, k), At(t, k))
    {
      assert HeldWithout(signers, At(s1, k), At(t1, k));
      assert At(t1, k).Token? || At(t, k).Token? ==> At(t1, k) == At(t, k);
    }
    forall k | At(t, k).Token? && At(t, k).holder !in signers
      ensures (At(s, k).Token? && SameAccount(signers, At(s, k), At(t, k))) || Clean(At(t, k))
    {
      assert At(t1, k) == At(t, k);
    }
    forall k | HandedAway(t, k) && k.holder !in signers
      ensures HandedAway(s, k) && (At(t, k).holder == At(s, k).holder || At(s, k).holder in signers)
    {
      assert HandedAway(t1, k);
    }
  }

  lemma RulesRefl(d: Records, signers: set<Address>)
    ensures TokenRules(d, d, signers)
  {
  }

  lemma CallRules(s: State, tx: Tx, i: Instr)
    requires Enabled(s, tx, i) && HasAfter(i)
    ensures TokenRules(Opened(s, i), i.after.data, SignersOf(tx, i))
  {
    match i {
      case Execute(w, _, _, _, after) =>
        assert Effects(s.(data := Opened(s, i)), after, InnerSigners(tx, w));
      case ExecuteDeferred(w, _, _, _, _, after) =>
        assert Effects(s.(data := Opened(s, i)), after, InnerSigners(tx, w));
      case MigrateWallet(vault, after) =>
        assert Effects(s, after, tx.signers + {vault});
      case Outside(after) =>
        assert Effects(s, after.(slot := s.slot), tx.signers);
    }
  }

  lemma BetweenRules(s: State, tx: Tx, i: Instr)
    requires Enabled(s, tx, i)
    ensures TokenRules(Opened(s, i), Between(s, i), SignersOf(tx, i))
  {
    if HasAfter(i) {
      CallRules(s, tx, i);
    } else {
      RulesRefl(Opened(s, i), SignersOf(tx, i));
    }
  }

  /** Every step obeys the token rules under the signatures it carries. */
  lemma StepRules(s: State, tx: Tx, i: Instr, t: State)
    requires Step(s, tx, i, t) && Inv(s.data)
    ensures TokenRules(s.data, t.data, SignersOf(tx, i))
  {
    BetweenRules(s, tx, i);
    if Opening(s, i).Some? {
      OpeningFine(s, tx, i);
      EditTokens(s.data, Opening(s, i).value);
    }
    if Closing(s, tx, i).Some? {
      ClosingFine(s, tx, i);
      EditTokens(Between(s, i), Closing(s, tx, i).value);
    }
    RulesCarry(s.data, Opened(s, i), Between(s, i), t.data, SignersOf(tx, i));
  }

  lemma EditVault(d: Records, e: Edit, v: Address)
    requires Fine(d, e) && v.VaultKey? && At(d, v).Empty?
    ensures At(Do(d, e), v).Empty?
  {
  }

  lemma MoveSpares(l: map<Address, nat>, from: Address, to: Address, n: nat, v: Address)
    requires v != from
    ensures Lam(Move(l, from, to, n), v) >= Lam(l, v)
  {
  }

  /** Creating and closing program accounts takes nothing from a vault. */
  lemma OwnLamports(s: State, tx: Tx, i: Instr, v: Address)
    requires RuntimeTx(tx) && Enabled(s, tx, i) && !HasAfter(i)
    requires !i.CreateWallet? && v.VaultKey? && At(s.data, v).Empty?
    ensures Lam(LamportsAfter(s, tx, i), v) >= Lam(s.lamports, v)
  {
  }

  lemma CreateLamports(s: State, tx: Tx, i: Instr, v: Address)
    requires RuntimeTx(tx) && Enabled(s, tx, i) && i.CreateWallet? && v.VaultKey?
    ensures Lam(LamportsAfter(s, tx, i), v) >= Lam(s.lamports, v)
  {
    var w, a := WalletKey(i.seed), AuthorityAt(WalletKey(i.seed), i.kind);
    var n := Short(s.lamports, w, MinimumBalance(tx, WALLET_SPACE));
    var l := Move(s.lamports, tx.payer, w, n);
    MoveSpares(s.lamports, tx.payer, w, n, v);
    MoveSpares(l, tx.payer, a, Short(l, a, MinimumBalance(tx, AuthoritySpace(i.kind))), v);
  }

  lemma AfterLamports(s: State, tx: Tx, i: Instr, v: Address)
    requires Enabled(s, tx, i) && HasAfter(i) && v.VaultKey? && v !in SignersOf(tx, i) && At(Opened(s, i), v).Empty?
    requires i.ExecuteDeferred? ==> i.deferred != v
    ensures Lam(LamportsAfter(s, tx, i), v) >= Lam(s.lamports, v)
  {
    match i {
      case ExecuteDeferred(w, deferred, refund, _, _, after) =>
        assert Effects(s.(data := Opened(s, i)), after, InnerSigners(tx, w));
        MoveSpares(after.lamports, deferred, refund, Lam(after.lamports, deferred), v);
      case Execute(w, _, _, _, after) =>
        assert Effects(s.(data := Opened(s, i)), after, InnerSigners(tx, w));
      case MigrateWallet(vault, after) =>
        assert Effects(s, after, tx.signers + {vault});
      case Outside(after) =>
        assert Effects(s, after.(slot := s.slot), tx.signers);
    }
  }

  /** No instruction takes lamports from a vault that does not sign. */
  lemma StepLamports(s: State, tx: Tx, i: Instr, t: State, v: Address)
    requires Step(s, tx, i, t) && v.VaultKey? && v !in SignersOf(tx, i)
    requires At(s.data, v).Empty? && At(Opened(s, i), v).Empty?
    ensures Lam(t.lamports, v) >= Lam(s.lamports, v)
  {
    if i.CreateWallet? {
      CreateLamports(s, tx, i, v);
    } else if HasAfter(i) {
      AfterLamports(s, tx, i, v);
    } else {
      OwnLamports(s, tx, i, v);
    }
  }

  lemma OpenedVault(s: State, tx: Tx, i: Instr, v: Address)
    requires Enabled(s, tx, i) && v.VaultKey? && At(s.data, v).Empty?
    ensures At(Opened(s, i), v).Empty?
  {
    if Opening(s, i).Some? {
      OpeningFine(s, tx, i);
      EditVault(s.data, Opening(s, i).value, v);
    }
  }

  lemma BetweenVault(s: State, tx: Tx, i: Instr, v: Address)
    requires Enabled(s, tx, i) && v.VaultKey? && v !in SignersOf(tx, i)
    requires At(Opened(s, i), v).Empty? && At(s.data, v).Empty?
    ensures At(Between(s, i), v).Empty?
  {
    match i {
      case Execute(w, _, _, _, after) =>
        assert Effects(s.(data := Opened(s, i)), after, InnerSigners(tx, w));
      case ExecuteDeferred(w, _, _, _, _, after) =>
        assert Effects(s.(data := Opened(s, i)), after, InnerSigners(tx, w));
      case MigrateWallet(vault, after) =>
        assert Effects(s, after, tx.signers + {vault});
      case Outside(after) =>
        assert Effects(s, after.(slot := s.slot), tx.signers);
      case _ =>
    }
  }

  lemma StepVault(s: State, tx: Tx, i: Instr, t: State, v: Address)
    requires Step(s, tx, i, t) && Inv(s.data) && v.VaultKey? && v !in SignersOf(tx, i) && At(s.data, v).Empty?
    ensures At(t.data, v).Empty? && Lam(t.lamports, v) >= Lam(s.lamports, v)
  {
    OpenedVault(s, tx, i, v);
    BetweenVault(s, tx, i, v);
    if Closing(s, tx, i).Some? {
      ClosingFine(s, tx, i);
      EditVault(Between(s, i), Closing(s, tx, i).value, v);
    }
    StepLamports(s, tx, i, t, v);
  }

  // ---------------------------------------------------------------------------
  // What a clean state keeps
  // ---------------------------------------------------------------------------

  ghost predicate Clean3(T: Trust, s: State) {
    AuthoritiesClean(T, s.data) && OthersOver(T, s.slot, s.data)
  }

  /** In a clean state the vault signs only for trusted actors. */
  lemma VaultSigns(T: Trust, s: State, tx: Tx, i: Instr)
    requires RuntimeTx(tx) && Enabled(s, tx, i) && Clean3(T, s) && Vault(T) in SignersOf(tx, i)
    ensures TrustedExec(T, s, tx, i)
  {
    match i {
      case Execute(w, actor, _, _, _) =>
        assert !OtherAuthority(T, actor, At(s.data, actor));
        assert !OtherSession(T, s.slot, At(s.data, actor));
      case ExecuteDeferred(w, deferred, _, _, _, _) =>
        assert !OtherDeferred(T, s.slot, At(s.data, deferred));
      case _ =>
    }
  }

  /** Under the token rules alone, without the vault's signature, nothing of it becomes exposed. */
  lemma RulesKeepGood(T: Trust, s: Records, t: Records, signers: set<Address>, k: Address)
    requires TokenRules(s, t, signers) && Vault(T) !in signers
    ensures NoNewGrant(T, s, t, k) || TrustedParty(T, s, signers, k)
  {
  }

  /** Without the vault's signature an honest step exposes nothing, clean or not. */
  lemma UnsignedStays(T: Trust, s: State, tx: Tx, i: Instr, t: State, k: Address)
    requires Step(s, tx, i, t) && Inv(s.data) && Honest(T, s, tx, i, t) && Vault(T) !in SignersOf(tx, i)
    ensures NoNewGrant(T, s.data, t.data, k)
  {
    StepRules(s, tx, i, t);
    RulesKeepGood(T, s.data, t.data, SignersOf(tx, i), k);
  }

  lemma GoodStays(T: Trust, s: State, tx: Tx, i: Instr, t: State, k: Address)
    requires Step(s, tx, i, t) && Inv(s.data) && Clean3(T, s) && Honest(T, s, tx, i, t)
    ensures NoNewGrant(T, s.data, t.data, k)
  {
    if Vault(T) in SignersOf(tx, i) {
      VaultSigns(T, s, tx, i);
    } else {
      UnsignedStays(T, s, tx, i, t, k);
    }
  }

  lemma VaultStays(T: Trust, s: State, tx: Tx, i: Instr, t: State)
    requires Step(s, tx, i, t) && Inv(s.data) && Clean3(T, s) && Honest(T, s, tx, i, t) && At(s.data, Vault(T)).Empty?
    ensures At(t.data, Vault(T)).Empty?
  {
    if Vault(T) in SignersOf(tx, i) {
      VaultSigns(T, s, tx, i);
    } else {
      StepVault(s, tx, i, t, Vault(T));
    }
  }

  // ---------------------------------------------------------------------------
  // Spending
  // ---------------------------------------------------------------------------

  /** Tokens the vault held are not there any more. */
  predicate Taken(T: Trust, s: Records, t: Records, k: Address) {
    && At(s, k).Token? && At(s, k).holder == Vault(T) && At(s, k).amount > 0
    && !(At(t, k).Token? && At(t, k).holder == Vault(T) && At(t, k).amount >= At(s, k).amount)
  }

  lemma TakenByGrantee(T: Trust, s: Records, t: Records, signers: set<Address>, k: Address)
    requires TokenRules(s, t, signers) && Vault(T) !in signers && !Bad(T, s, k) && Taken(T, s, t, k)
    ensures TrustedGrantee(T, signers, At(s, k))
  {
    assert HeldWithout(signers, At(s, k), At(t, k));
  }

  ghost predicate Safe(T: Trust, s: State) {
    Clean3(T, s) && At(s.data, Vault(T)).Empty? && forall k :: !Bad(T, s.data, k)
  }

  /** From a safe state, whatever leaves the wallet leaves by a trusted hand. */
  lemma SpendIsTrusted(T: Trust, s: State, tx: Tx, i: Instr, t: State)
    requires Step(s, tx, i, t) && Inv(s.data) && Safe(T, s)
    ensures Lam(t.lamports, Vault(T)) < Lam(s.lamports, Vault(T)) ==> TrustedExec(T, s, tx, i)
    ensures forall k :: Taken(T, s.data, t.data, k) ==>
              TrustedExec(T, s, tx, i) || TrustedGrantee(T, SignersOf(tx, i), At(s.data, k))
  {
    if Vault(T) in SignersOf(tx, i) {
      VaultSigns(T, s, tx, i);
    } else {
      StepVault(s, tx, i, t, Vault(T));
      StepRules(s, tx, i, t);
      forall k | Taken(T, s.data, t.data, k)
        ensures TrustedGrantee(T, SignersOf(tx, i), At(s.data, k))
      {
        TakenByGrantee(T, s.data, t.data, SignersOf(tx, i), k);
      }
    }
  }

  // ---------------------------------------------------------------------------
  // Runs
  // ---------------------------------------------------------------------------

  ghost predicate HonestAt(T: Trust, r: Run, n: nat)
    requires Lengths(r) && n < |r.instrs|
  {
    Honest(T, r.states[n], r.txs[n], r.instrs[n], r.states[n + 1])
  }

  ghost predicate HonestFrom(T: Trust, r: Run, a: nat)
    requires Lengths(r)
  {
    forall n :: a <= n < |r.instrs| ==> HonestAt(T, r, n)
  }

  lemma AllStayClean(T: Trust, s: State, tx: Tx, i: Instr, t: State, x: nat)
    requires Step(s, tx, i, t) && Inv(s.data) && IsWallet(s, T.wallet)
    requires AuthoritiesClean(T, s.data) && Honest(T, s, tx, i, t)
    ensures AuthoritiesClean(T, t.data)
    ensures (forall k :: !OtherSession(T, x, At(s.data, k))) ==> (forall k :: !OtherSession(T, x, At(t.data, k)))
    ensures (forall k :: !OtherDeferred(T, x, At(s.data, k))) ==> (forall k :: !OtherDeferred(T, x, At(t.data, k)))
  {
    forall k
      ensures !OtherAuthority(T, k, At(t.data, k))
      ensures OtherSession(T, x, At(t.data, k)) ==> OtherSession(T, x, At(s.data, k))
      ensures OtherDeferred(T, x, At(t.data, k)) ==> OtherDeferred(T, x, At(s.data, k))
    {
      RecordsStayClean(T, s, tx, i, t, k, x);
    }
  }

  /** What was seen to be over by `x` when sessions, and when deferred authorizations, were read. */
  ghost predicate SessionsOverAt(T: Trust, r: Run, n: nat, x: nat)
    requires n < |r.states|
  {
    forall k :: !OtherSession(T, x, At(r.states[n].data, k))
  }

  ghost predicate DeferredsOverAt(T: Trust, r: Run, n: nat, x: nat)
    requires n < |r.states|
  {
    forall k :: !OtherDeferred(T, x, At(r.states[n].data, k))
  }

  lemma CleanNext(T: Trust, r: Run, n: nat, x: nat)
    requires IsRun(r) && Initial(r.states[0]) && 0 < n < |r.states| && HonestAt(T, r, n - 1)
    requires IsWallet(r.states[n - 1], T.wallet) && AuthoritiesClean(T, r.states[n - 1].data)
    ensures IsWallet(r.states[n], T.wallet) && AuthoritiesClean(T, r.states[n].data)
    ensures SessionsOverAt(T, r, n - 1, x) ==> SessionsOverAt(T, r, n, x)
    ensures DeferredsOverAt(T, r, n - 1, x) ==> DeferredsOverAt(T, r, n, x)
  {
    InvReached(r, n - 1);
    assert StepAt(r, n - 1);
    AllStayClean(T, r.states[n - 1], r.txs[n - 1], r.instrs[n - 1], r.states[n], x);
    WalletKept(r.states[n - 1], r.txs[n - 1], r.instrs[n - 1], r.states[n], T.wallet);
  }

  lemma {:induction false} AuthoritiesFrom(T: Trust, r: Run, a: nat, n: nat)
    requires IsRun(r) && Initial(r.states[0]) && HonestFrom(T, r, a) && a <= n < |r.states|
    requires IsWallet(r.states[a], T.wallet) && AuthoritiesClean(T, r.states[a].data)
    ensures IsWallet(r.states[n], T.wallet) && AuthoritiesClean(T, r.states[n].data)
    decreases n
  {
    if a < n {
      AuthoritiesFrom(T, r, a, n - 1);
      assert HonestAt(T, r, n - 1);
      CleanNext(T, r, n, 0);
    }
  }

  lemma {:induction false} OverFrom(T: Trust, r: Run, a: nat, b: nat, n: nat, x: nat)
    requires IsRun(r) && Initial(r.states[0]) && HonestFrom(T, r, a) && a <= b <= n < |r.states|
    requires IsWallet(r.states[a], T.wallet) && AuthoritiesClean(T, r.states[a].data)
    ensures SessionsOverAt(T, r, b, x) ==> SessionsOverAt(T, r, n, x)
    ensures DeferredsOverAt(T, r, b, x) ==> DeferredsOverAt(T, r, n, x)
    decreases n
  {
    if b < n {
      OverFrom(T, r, a, b, n - 1, x);
      AuthoritiesFrom(T, r, a, n - 1);
      assert HonestAt(T, r, n - 1);
      CleanNext(T, r, n, x);
    }
  }

  /**
   Every untrusted session and deferred authorization was made by the time the authorities were
   read, so it lapses.
   */
  lemma LapsesFrom(T: Trust, r: Run, a: nat, x: nat)
    requires IsRun(r) && Initial(r.states[0]) && a < |r.states| && x > r.states[a].slot + MAX_SESSION_SLOTS
    ensures SessionsOverAt(T, r, a, x) && DeferredsOverAt(T, r, a, x)
  {
    forall k
      ensures !OtherSession(T, x, At(r.states[a].data, k)) && !OtherDeferred(T, x, At(r.states[a].data, k))
    {
      InTermReached(r, a, k);
    }
  }

  /** Nothing ends in slot 0: what is over by slot 1 is over from the start. */
  lemma OverFromStart(T: Trust, r: Run, n: nat)
    requires IsRun(r) && Initial(r.states[0]) && n < |r.states|
    ensures SessionsOverAt(T, r, n, 1) ==> SessionsOverAt(T, r, n, 0)
    ensures DeferredsOverAt(T, r, n, 1) ==> DeferredsOverAt(T, r, n, 0)
  {
    forall k
      ensures OtherSession(T, 0, At(r.states[n].data, k)) ==> OtherSession(T, 1, At(r.states[n].data, k))
      ensures OtherDeferred(T, 0, At(r.states[n].data, k)) ==> OtherDeferred(T, 1, At(r.states[n].data, k))
    {
      InTermReached(r, n, k);
    }
  }

  /**
   Authorities were clean at `a`; the others seen at `b1` and `b2` are over by slot `x`. From then
   on, every state at or past slot `x` is clean.
   */
  ghost predicate ReadClean(T: Trust, r: Run, a: nat, b1: nat, b2: nat, x: nat)
    requires IsRun(r)
  {
    && Initial(r.states[0]) && HonestFrom(T, r, a) && a <= b1 < |r.states| && a <= b2 < |r.states|
    && IsWallet(r.states[a], T.wallet) && AuthoritiesClean(T, r.states[a].data)
    && SessionsOverAt(T, r, b1, x) && DeferredsOverAt(T, r, b2, x)
  }

  lemma CleanFrom(T: Trust, r: Run, a: nat, b1: nat, b2: nat, x: nat, n: nat)
    requires IsRun(r) && ReadClean(T, r, a, b1, b2, x) && b1 <= n < |r.states| && b2 <= n && x <= r.states[n].slot
    ensures Clean3(T, r.states[n])
  {
    AuthoritiesFrom(T, r, a, n);
    OverFrom(T, r, a, b1, n, x);
    OverFrom(T, r, a, b2, n, x);
    var s := r.states[n];
    forall k
      ensures OtherSession(T, s.slot, At(s.data, k)) ==> OtherSession(T, x, At(s.data, k))
      ensures OtherDeferred(T, s.slot, At(s.data, k)) ==> OtherDeferred(T, x, At(s.data, k))
    {
    }
  }

  lemma GoodNext(T: Trust, r: Run, a: nat, b1: nat, b2: nat, x: nat, n: nat, k: Address)
    requires IsRun(r) && ReadClean(T, r, a, b1, b2, x) && b1 < n < |r.states| && b2 < n && x <= r.states[n - 1].slot
    ensures NoNewGrant(T, r.states[n - 1].data, r.states[n].data, k)
    ensures At(r.states[n - 1].data, Vault(T)).Empty? ==> At(r.states[n].data, Vault(T)).Empty?
  {
    CleanFrom(T, r, a, b1, b2, x, n - 1);
    InvReached(r, n - 1);
    assert StepAt(r, n - 1) && HonestAt(T, r, n - 1);
    GoodStays(T, r.states[n - 1], r.txs[n - 1], r.instrs[n - 1], r.states[n], k);
    if At(r.states[n - 1].data, Vault(T)).Empty? {
      VaultStays(T, r.states[n - 1], r.txs[n - 1], r.instrs[n - 1], r.states[n]);
    }
  }

  lemma {:induction false} SlotsMonotone(r: Run, m: nat, n: nat)
    requires IsRun(r) && m <= n < |r.states|
    ensures r.states[m].slot <= r.states[n].slot
    decreases n
  {
    if m < n {
      SlotsMonotone(r, m, n - 1);
      assert StepAt(r, n - 1);
      SlotsRise(r.states[n - 1], r.txs[n - 1], r.instrs[n - 1], r.states[n]);
    }
  }

  lemma {:induction false} GoodFrom(T: Trust, r: Run, a: nat, b1: nat, b2: nat, x: nat, m: nat, n: nat, k: Address)
    requires IsRun(r) && ReadClean(T, r, a, b1, b2, x) && b1 <= m && b2 <= m <= n < |r.states| && x <= r.states[m].slot
    ensures NoNewGrant(T, r.states[m].data, r.states[n].data, k)
    ensures At(r.states[m].data, Vault(T)).Empty? ==> At(r.states[n].data, Vault(T)).Empty?
    decreases n
  {
    if m < n {
      GoodFrom(T, r, a, b1, b2, x, m, n - 1, k);
      SlotsMonotone(r, m, n - 1);
      GoodNext(T, r, a, b1, b2, x, n, k);
    }
  }

  /** A step on which the slot turns is nobody's of this program, so it exposes nothing. */
  lemma TurnOfSlot(T: Trust, r: Run, n: nat, k: Address)
    requires IsRun(r) && Initial(r.states[0]) && 0 < n < |r.states| && HonestAt(T, r, n - 1)
    requires r.states[n - 1].slot < r.states[n].slot
    ensures NoNewGrant(T, r.states[n - 1].data, r.states[n].data, k)
  {
    InvReached(r, n - 1);
    assert StepAt(r, n - 1);
    assert r.instrs[n - 1].Outside?;
    UnsignedStays(T, r.states[n - 1], r.txs[n - 1], r.instrs[n - 1], r.states[n], k);
  }

  /**
   What was not exposed, or not lost, at the end of a slot does not become so, if everything the
   reads passed over is over in the next slot.
   */
  lemma GoodFromSlotEnd(T: Trust, r: Run, a: nat, b1: nat, b2: nat, x: nat, m: nat, n: nat, k: Address)
    requires IsRun(r) && ReadClean(T, r, a, b1, b2, x) && b1 <= m && b2 <= m <= n < |r.states|
    requires x <= r.states[m].slot + 1 && (m + 1 < |r.states| ==> r.states[m].slot < r.states[m + 1].slot)
    ensures NoNewGrant(T, r.states[m].data, r.states[n].data, k)
  {
    if m < n {
      assert HonestAt(T, r, m);
      TurnOfSlot(T, r, m + 1, k);
      GoodFrom(T, r, a, b1, b2, x, m + 1, n, k);
    }
  }
}
