/**
 The records the wallet program keeps, and the edits its instructions make to them: who holds
 which rank on which wallet, which sessions and deferred authorizations are open. Every edit
 keeps each record in agreement with its address, its wallet and the wallet's owner count.
 */
module Registry {
  import opened Bytes
  import opened Chain
  import opened Limits
  import opened PolicyEngine
  import opened Narrowing

  type Records = map<Address, Content>

  const OWNER: byte := 0
  const ADMIN: byte := 1
  const DELEGATE: byte := 2

  const MAX_POLICY_BUFFER_SIZE: nat := 2048

  // ---------------------------------------------------------------------------
  // Edits
  // ---------------------------------------------------------------------------

  datatype Edit =
    | Birth(w: Address, kind: Kind)
    | Grant(w: Address, kind: Kind, role: byte, policy: seq<byte>)
    | Drop(w: Address, target: Address)
    | Swap(w: Address, current: Address, kind: Kind)
    | Open(w: Address, key: Key, expiresAt: u64, policy: seq<byte>)
    | Promise(w: Address, authority: Address, counter: nat, payer: Address, instructionsHash: Key, accountsHash: Key,
        expiresAt: u64)
    | Erase(k: Address)
    | Reap(k: Address)
    | Tick(k: Address)
    | Settle(k: Address, policy: seq<byte>, spend: Spend)

  function AuthorityAt(w: Address, kind: Kind): Address {
    AuthorityKey(w, IdSeed(kind))
  }

  ghost predicate Storable(policy: seq<byte>) {
    |policy| <= MAX_POLICY_BUFFER_SIZE && Runnable(policy)
  }

  /** A compressed curve point is 33 bytes. */
  predicate Sized(kind: Kind) {
    kind.Secp256r1? ==> |kind.passkey| == 33
  }

  predicate Endable(c: Content) {
    c.Session? || c.Deferred? || c.LegacySession? || c.LegacyDeferred?
  }

  ghost predicate Fine(d: Records, e: Edit) {
    match e
    case Birth(w, kind) => w.WalletKey? && At(d, w).Empty? && At(d, AuthorityAt(w, kind)).Empty? && Sized(kind)
    case Grant(w, kind, role, policy) =>
      && At(d, w).Wallet? && At(d, AuthorityAt(w, kind)).Empty? && Sized(kind)
      && role <= DELEGATE && (|policy| > 0 <==> role == DELEGATE) && Storable(policy)
      && (role == OWNER ==> At(d, w).ownerCount < U32_MAX)
    case Drop(w, target) =>
      && At(d, w).Wallet? && At(d, target).Authority? && At(d, target).wallet == w
      && (At(d, target).role == OWNER ==> At(d, w).ownerCount > 1)
    case Swap(w, current, kind) =>
      At(d, w).Wallet? && HoldsRank(At(d, current), w, OWNER) && At(d, AuthorityAt(w, kind)).Empty? && Sized(kind)
    case Open(w, key, _, policy) => At(d, w).Wallet? && At(d, SessionKey(w, key)).Empty? && Storable(policy)
    case Promise(w, authority, counter, payer, _, _, _) =>
      At(d, w).Wallet? && At(d, DeferredKey(w, authority, counter)).Empty? && payer.User?
    case Erase(k) => Endable(At(d, k))
    case Reap(k) => At(d, k).Zeroed?
    case Tick(k) => At(d, k).Authority? && (At(d, k).kind.Secp256r1? ==> At(d, k).counter < U32_MAX)
    case Settle(k, policy, spend) =>
      (At(d, k).Authority? || At(d, k).Session?) && |policy| == |At(d, k).policy| &&
          Settled(At(d, k).policy, policy, spend)
      && Storable(policy)
  }

  function Born(w: Address, kind: Kind, role: byte, policy: seq<byte>): Content {
    Authority(w, kind, role, 0, policy)
  }

  /** The odometer moves for passkeys. */
  function Ticked(c: Content): Content
    requires c.Authority?
  {
    if c.kind.Secp256r1? then c.(counter := c.counter + 1) else c
  }

  /** The edit, made only where it is fine; the program's checks see to that. */
  ghost function Do(d: Records, e: Edit): Records {
    if !Fine(d, e) then d
    else match e
    case Birth(w, kind) => d[w := Wallet(1)][AuthorityAt(w, kind) := Born(w, kind, OWNER, [])]
    case Grant(w, kind, role, policy) =>
      (if role == OWNER then d[w := Wallet(d[w].ownerCount + 1)]
          else d)[AuthorityAt(w, kind) := Born(w, kind, role, policy)]
    case Drop(w, target) =>
      (if At(d, target).role == OWNER then d[w := Wallet(At(d, w).ownerCount - 1)] else d)[target := Zeroed]
    case Swap(w, current, kind) => d[AuthorityAt(w, kind) := Born(w, kind, OWNER, [])][current := Zeroed]
    case Open(w, key, expiresAt, policy) => d[SessionKey(w, key) := Session(w, key, expiresAt, policy)]
    case Promise(w, authority, counter, payer, ih, ah, expiresAt) =>
      d[DeferredKey(w, authority, counter) := Deferred(w, authority, payer, ih, ah, expiresAt)]
    case Erase(k) => d[k := Zeroed]
    case Reap(k) => d[k := Empty]
    case Tick(k) => d[k := Ticked(d[k])]
    case Settle(k, policy, _) => d[k := d[k].(policy := policy)]
  }

  // ---------------------------------------------------------------------------
  // What every edit keeps
  // ---------------------------------------------------------------------------

  predicate HoldsRank(c: Content, w: Address, rank: byte) {
    c.Authority? && c.wallet == w && c.role == rank
  }

  /** The authorities of a rank on a wallet. */
  ghost function Ranked(d: Records, w: Address, rank: byte): set<Address> {
    set k | k in d && HoldsRank(d[k], w, rank)
  }

  lemma RankedAt(d: Records, w: Address, rank: byte, k: Address)
    ensures k in Ranked(d, w, rank) <==> HoldsRank(At(d, k), w, rank)
  {
  }

  /** What a record says agrees with its address. */
  ghost predicate Fits(k: Address, c: Content) {
    match c
    case Empty => true
    case Zeroed => true
    case Wallet(_) => k.WalletKey?
    case Authority(w, kind, role, counter, policy) =>
      && k == AuthorityAt(w, kind) && Sized(kind) && role <= DELEGATE && (|policy| > 0 <==> role == DELEGATE)
      && Storable(policy) && counter <= U32_MAX
    case Session(w, key, _, policy) => k == SessionKey(w, key) && Storable(policy)
    case Deferred(w, authority, payer, _, _, _) =>
      k.DeferredKey? && k.wallet == w && k.authority == authority && payer.User?
    case _ => false
  }

  predicate Homed(c: Content) {
    c.Authority? || c.Session? || c.Deferred?
  }

  ghost predicate Shaped(d: Records, k: Address) {
    if Derived(k) then Fits(k, At(d, k)) && (Homed(At(d, k)) ==> At(d, At(d, k).wallet).Wallet?)
    else External(At(d, k))
  }

  /** A wallet's stored count is the number of its Owners, and there is one. */
  ghost predicate Counted(d: Records, w: Address) {
    At(d, w).Wallet? ==> 1 <= At(d, w).ownerCount == |Ranked(d, w, OWNER)| <= U32_MAX
  }

  ghost predicate Inv(d: Records) {
    forall k :: Shaped(d, k) && Counted(d, k)
  }

  /** The authorities of a rank after an edit. */
  ghost function RankedBy(d: Records, e: Edit, w: Address, rank: byte): set<Address>
    requires Fine(d, e)
  {
    var before := Ranked(d, w, rank);
    match e
    case Birth(v, kind) => if v == w && rank == OWNER then before + {AuthorityAt(w, kind)} else before
    case Grant(v, kind, role, _) => if v == w && role == rank then before + {AuthorityAt(w, kind)} else before
    case Drop(v, target) => before - {target}
    case Swap(v, current, kind) =>
      if v == w && rank == OWNER then before - {current} + {AuthorityAt(w, kind)} else before
    case _ => before
  }

  lemma RankDone(d: Records, e: Edit, w: Address, rank: byte, k: Address)
    requires Fine(d, e)
    ensures HoldsRank(At(Do(d, e), k), w, rank) <==> k in RankedBy(d, e, w, rank)
  {
    RankedAt(d, w, rank, k);
  }

  lemma RankedDone(d: Records, e: Edit, w: Address, rank: byte)
    requires Fine(d, e)
    ensures Ranked(Do(d, e), w, rank) == RankedBy(d, e, w, rank)
  {
    forall k
      ensures k in Ranked(Do(d, e), w, rank) <==> k in RankedBy(d, e, w, rank)
    {
      RankDone(d, e, w, rank, k);
      RankedAt(Do(d, e), w, rank, k);
    }
  }

  lemma WalletsStay(d: Records, e: Edit, w: Address)
    requires Fine(d, e) && At(d, w).Wallet?
    ensures At(Do(d, e), w).Wallet?
  {
  }

  lemma FitsDone(d: Records, e: Edit, k: Address)
    requires Fine(d, e) && Shaped(d, k)
    ensures if Derived(k) then Fits(k, At(Do(d, e), k)) else External(At(Do(d, e), k))
  {
  }

  lemma HomedDone(d: Records, e: Edit, k: Address)
    requires Fine(d, e) && Shaped(d, k) && Homed(At(Do(d, e), k))
    ensures At(d, At(Do(d, e), k).wallet).Wallet? || (e.Birth? && At(Do(d, e), k).wallet == e.w)
  {
  }

  lemma ShapedDone(d: Records, e: Edit, k: Address)
    requires Fine(d, e) && Shaped(d, k)
    ensures Shaped(Do(d, e), k)
  {
    FitsDone(d, e, k);
    var c := At(Do(d, e), k);
    if Derived(k) && Homed(c) {
      HomedDone(d, e, k);
      if At(d, c.wallet).Wallet? {
        WalletsStay(d, e, c.wallet);
      }
    }
  }

  lemma NoRankWithoutWallet(d: Records, w: Address)
    requires Inv(d) && !At(d, w).Wallet?
    ensures Ranked(d, w, OWNER) == {}
  {
    forall k
      ensures k !in Ranked(d, w, OWNER)
    {
      assert Shaped(d, k);
    }
  }

  lemma CountBirth(d: Records, e: Edit, w: Address)
    requires e.Birth? && Fine(d, e) && Counted(d, w) && At(Do(d, e), w).Wallet?
    requires (!At(d, w).Wallet? ==> Ranked(d, w, OWNER) == {})
    ensures 1 <= At(Do(d, e), w).ownerCount == |RankedBy(d, e, w, OWNER)| <= U32_MAX
  {
  }

  lemma CountGrant(d: Records, e: Edit, w: Address)
    requires e.Grant? && Fine(d, e) && Counted(d, w) && At(Do(d, e), w).Wallet?
    ensures 1 <= At(Do(d, e), w).ownerCount == |RankedBy(d, e, w, OWNER)| <= U32_MAX
  {
    RankedAt(d, w, OWNER, AuthorityAt(w, e.kind));
  }

  lemma CountDrop(d: Records, e: Edit, w: Address)
    requires e.Drop? && Fine(d, e) && Counted(d, w) && At(Do(d, e), w).Wallet?
    ensures 1 <= At(Do(d, e), w).ownerCount == |RankedBy(d, e, w, OWNER)| <= U32_MAX
  {
    RankedAt(d, w, OWNER, e.target);
  }

  lemma CountSwap(d: Records, e: Edit, w: Address)
    requires e.Swap? && Fine(d, e) && Counted(d, w) && At(Do(d, e), w).Wallet?
    ensures 1 <= At(Do(d, e), w).ownerCount == |RankedBy(d, e, w, OWNER)| <= U32_MAX
  {
    RankedAt(d, w, OWNER, e.current);
    RankedAt(d, w, OWNER, AuthorityAt(w, e.kind));
  }

  /** The arithmetic of `owner_count` follows the set of Owners. */
  lemma CountedDone(d: Records, e: Edit, w: Address)
    requires Fine(d, e) && Counted(d, w) && (!At(d, w).Wallet? ==> Ranked(d, w, OWNER) == {})
    ensures Counted(Do(d, e), w)
  {
    RankedDone(d, e, w, OWNER);
    if At(Do(d, e), w).Wallet? {
      match e {
        case Birth(_, _) => CountBirth(d, e, w);
        case Grant(_, _, _, _) => CountGrant(d, e, w);
        case Drop(_, _) => CountDrop(d, e, w);
        case Swap(_, _, _) => CountSwap(d, e, w);
        case _ =>
      }
    }
  }

  lemma InvDone(d: Records, e: Edit)
    requires Inv(d) && Fine(d, e)
    ensures Inv(Do(d, e))
  {
    forall k
      ensures Shaped(Do(d, e), k) && Counted(Do(d, e), k)
    {
      assert Shaped(d, k);
      ShapedDone(d, e, k);
      if !At(d, k).Wallet? {
        NoRankWithoutWallet(d, k);
      }
      CountedDone(d, e, k);
    }
  }

  // ---------------------------------------------------------------------------
  // Records nobody edited
  // ---------------------------------------------------------------------------

  /** The same derived records; what lies elsewhere is not this program's. */
  ghost predicate Agree(d: Records, e: Records) {
    && (forall k :: Derived(k) ==> At(e, k) == At(d, k))
    && (forall k :: !Derived(k) ==> External(At(e, k)))
  }

  lemma RankedAgrees(d: Records, e: Records, w: Address, rank: byte)
    requires Inv(d) && Agree(d, e)
    ensures Ranked(e, w, rank) == Ranked(d, w, rank)
  {
    forall k
      ensures k in Ranked(e, w, rank) <==> k in Ranked(d, w, rank)
    {
      RankedAt(d, w, rank, k);
      RankedAt(e, w, rank, k);
      assert Shaped(d, k);
    }
  }

  lemma InvAgrees(d: Records, e: Records)
    requires Inv(d) && Agree(d, e)
    ensures Inv(e)
  {
    forall k
      ensures Shaped(e, k) && Counted(e, k)
    {
      assert Shaped(d, k) && Counted(d, k);
      RankedAgrees(d, e, k, OWNER);
      assert At(e, k).Wallet? ==> Derived(k);
      if Derived(k) && Homed(At(d, k)) {
        assert Shaped(d, At(d, k).wallet);
      }
    }
  }

  lemma AgreeRefl(d: Records)
    requires Inv(d)
    ensures Agree(d, d)
  {
    forall k | !Derived(k)
      ensures External(At(d, k))
    {
      assert Shaped(d, k);
    }
  }

  lemma EffectsAgree(s: State, t: State, signers: set<Address>)
    requires Effects(s, t, signers)
    ensures Agree(s.data, t.data)
  {
  }
}
