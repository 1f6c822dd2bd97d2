/**
 The chain the wallet program runs on: addresses, typed accounts, lamports, slots, and what the
 runtime and the token programs let a transaction or an inner call do.

 Derived addresses are the constructors of a datatype, so derivation is injective in its seeds
 and no two kinds collide. An account's bytes appear as the record the program stores there.
 */
module Chain {
  import opened Bytes
  import Sums

  datatype Address =
    | User(id: Key)
    | AtaKey(holder: Address, mint: Key)
    | LegacyKey(id: Key)
    | VaultKey(wallet: Address)
    | WalletKey(seed: Key)
    | AuthorityKey(wallet: Address, id: Key)
    | SessionKey(wallet: Address, key: Key)
    | DeferredKey(wallet: Address, authority: Address, counter: nat)

  /** Addresses at which this program, and only it, can create accounts. */
  predicate Derived(a: Address) {
    a.WalletKey? || a.AuthorityKey? || a.SessionKey? || a.DeferredKey?
  }

  /** What authenticates an authority: a transaction signer, or a passkey under a credential. */
  datatype Kind = Ed25519(pubkey: Key) | Secp256r1(credential: Key, passkey: seq<byte>, rpIdHash: Key)

  /** The seed an authority's address is derived from. */
  function IdSeed(kind: Kind): Key {
    match kind
    case Ed25519(pubkey) => pubkey
    case Secp256r1(credential, _, _) => credential
  }

  datatype Content =
    | Empty
    | Zeroed
    | Foreign
    | Token(mint: Key, holder: Address, amount: nat, delegate: Option<Address>, closer: Option<Address>, native: bool)
    | LegacySession(expiresAt: u64)
    | LegacyDeferred(payer: Address, expiresAt: u64)
    | Legacy
    | Wallet(ownerCount: nat)
    | Authority(wallet: Address, kind: Kind, role: byte, counter: nat, policy: seq<byte>)
    | Session(wallet: Address, key: Key, expiresAt: u64, policy: seq<byte>)
    | Deferred(wallet: Address, authority: Address, payer: Address, instructionsHash: Key, accountsHash: Key,
        expiresAt: u64)

  /** What may sit outside the derived addresses: nothing this program's current version wrote. */
  predicate External(c: Content) {
    !c.Wallet? && !c.Authority? && !c.Session? && !c.Deferred?
  }

  datatype State = State(lamports: map<Address, nat>, data: map<Address, Content>, slot: u64)

  function Lam(l: map<Address, nat>, a: Address): nat {
    if a in l then l[a] else 0
  }

  function At(d: map<Address, Content>, a: Address): Content {
    if a in d then d[a] else Empty
  }

  /** A lamport transfer between two accounts that can be made. */
  function Move(l: map<Address, nat>, from: Address, to: Address, n: nat): map<Address, nat> {
    if n <= Lam(l, from) && from != to then l[from := Lam(l, from) - n][to := Lam(l, to) + n] else l
  }

  lemma SumWrite(l: map<Address, nat>, a: Address, n: nat)
    ensures Sums.Sum(l[a := n]) == Sums.Sum(l) - Lam(l, a) + n
  {
    if a in l {
      Sums.SumReplace(l, a, n);
    } else {
      Sums.SumAdd(l, a, n);
    }
  }

  lemma MoveConserves(l: map<Address, nat>, from: Address, to: Address, n: nat)
    ensures Sums.Sum(Move(l, from, to, n)) == Sums.Sum(l)
  {
    if n <= Lam(l, from) && from != to {
      SumWrite(l, from, Lam(l, from) - n);
      SumWrite(l[from := Lam(l, from) - n], to, Lam(l, to) + n);
    }
  }

  // ---------------------------------------------------------------------------
  // What everyone else can do
  // ---------------------------------------------------------------------------

  predicate Signs(signers: set<Address>, a: Option<Address>) {
    a.Some? && a.value in signers
  }

  /**
   The same token account as before, as far as its holder's absence allows changes: a delegate
   may be used up, and a close authority that signs may pass its right on.
   */
  predicate SameAccount(signers: set<Address>, before: Content, after: Content)
    requires before.Token?
  {
    && after.Token? && after.mint == before.mint && after.holder == before.holder && after.native == before.native
    && (after.closer == before.closer || Signs(signers, before.closer))
    && (after.delegate == before.delegate || after.delegate.None?)
  }

  /** What a holder who did not sign can find on an account that came to it: `SetAuthority` clears the rest. */
  predicate Clean(c: Content)
    requires c.Token?
  {
    c.delegate.None? && (c.native ==> c.closer.None?)
  }

  /** Without its holder's signature, an account keeps what it holds unless a grantee signs. */
  predicate HeldWithout(signers: set<Address>, before: Content, after: Content)
    requires before.Token?
  {
    || (SameAccount(signers, before, after) && (after.amount >= before.amount || Signs(signers, before.delegate)))
    || (Signs(signers, before.closer) && (before.native || before.amount == 0 || Signs(signers, before.delegate)))
  }

  /** The associated account of `a` is in someone else's hands. */
  predicate HandedAway(d: map<Address, Content>, a: Address) {
    a.AtaKey? && At(d, a).Token? && At(d, a).holder != a.holder
  }

  ghost predicate TokenRules(s: map<Address, Content>, t: map<Address, Content>, signers: set<Address>) {
    && (forall k :: At(s, k).Token? && At(s, k).holder !in signers ==> HeldWithout(signers, At(s, k), At(t, k)))
    && (forall k :: At(t, k).Token? && At(t, k).holder !in signers ==>
          (At(s, k).Token? && SameAccount(signers, At(s, k), At(t, k))) || Clean(At(t, k)))
    && (forall k :: HandedAway(t, k) && k.holder !in signers ==>
          HandedAway(s, k) && (At(t, k).holder == At(s, k).holder || At(s, k).holder in signers))
  }

  /**
   What calls outside this program can do with these signatures. Accounts this program owns keep
   their data and lose no lamports; a vault that is a plain system account keeps both unless it
   signs; a token account is its holder's.
   */
  ghost predicate Effects(s: State, t: State, signers: set<Address>) {
    && t.slot == s.slot
    && Sums.Sum(t.lamports) == Sums.Sum(s.lamports)
    && (forall k :: Derived(k) ==> At(t.data, k) == At(s.data, k) && Lam(t.lamports, k) >= Lam(s.lamports, k))
    && (forall k :: !Derived(k) ==> External(At(t.data, k)))
    && (forall k: Address :: k.VaultKey? && k !in signers && At(s.data, k).Empty? ==>
          At(t.data, k).Empty? && Lam(t.lamports, k) >= Lam(s.lamports, k))
    && TokenRules(s.data, t.data, signers)
  }

  lemma EffectsRefl(s: State, signers: set<Address>)
    requires forall k :: !Derived(k) ==> External(At(s.data, k))
    ensures Effects(s, s, signers)
  {
  }

  lemma TokenRulesCompose(
      s: map<Address, Content>, m: map<Address, Content>, t: map<Address, Content>, signers: set<Address>)
    requires TokenRules(s, m, signers) && TokenRules(m, t, signers)
    ensures TokenRules(s, t, signers)
  {
    forall k | At(s, k).Token? && At(s, k).holder !in signers
      ensures HeldWithout(signers, At(s, k), At(t, k))
    {
      assert HeldWithout(signers, At(s, k), At(m, k));
      if SameAccount(signers, At(s, k), At(m, k)) {
        assert HeldWithout(signers, At(m, k), At(t, k));
      }
    }
    forall k | At(t, k).Token? && At(t, k).holder !in signers
      ensures (At(s, k).Token? && SameAccount(signers, At(s, k), At(t, k))) || Clean(At(t, k))
    {
      if At(m, k).Token? && SameAccount(signers, At(m, k), At(t, k)) {
        assert At(m, k).holder !in signers;
      }
    }
  }

  /** Calls in a row amount to one call with the same signatures. */
  lemma EffectsCompose(s: State, m: State, t: State, signers: set<Address>)
    requires Effects(s, m, signers) && Effects(m, t, signers)
    ensures Effects(s, t, signers)
  {
    TokenRulesCompose(s.data, m.data, t.data, signers);
  }
}
