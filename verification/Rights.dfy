/**
 Who may do what with a wallet, as a table of ranks: an Owner is 0, an Admin 1, a Delegate 2. The
 processors' checks are this table, both ways, and what they create and close is funded and
 refunded to the lamport.
 */
module Rights {
  import opened Bytes
  import opened Chain
  import opened Registry
  import opened WalletProgram
  import Narrowing
  import PolicyEngine

  /** What its rank, its policy and its kind entitle the authority `a` to. */
  ghost predicate Entitled(s: State, i: Instr, a: Address)
    requires At(s.data, a).Authority?
  {
    var me := At(s.data, a);
    var unbounded := me.policy == [];
    match i
    case AddAuthority(_, _, _, role, policy) =>
      && unbounded && ((me.role == 0 && role <= 2) || (me.role == 1 && role == 2))
      && (policy == [] <==> role != 2)
    case RemoveAuthority(w, _, target, _) =>
      && At(s.data, target).Authority? && At(s.data, target).wallet == w && target != a
      && var rank := At(s.data, target).role;
         (me.role == 0 && (rank == 0 ==> At(s.data, w).Wallet? && At(s.data, w).ownerCount >= 2))
         || (me.role == 1 && rank == 2)
    case TransferOwnership(_, _, _, _) => me.role == 0 && unbounded
    case CreateSession(_, _, _, expiresAt, _) =>
      me.role <= 1 && unbounded && s.slot < expiresAt && expiresAt - s.slot <= 6_480_000
    case RevokeSession(w, _, session, _) =>
      me.role <= 1 && At(s.data, session).Session? && At(s.data, session).wallet == w
    case Authorize(_, _, _, _, offset) => me.role <= 1 && unbounded && me.kind.Secp256r1? && 10 <= offset <= 9_000
    case _ => true
  }

  /** What the instruction needs besides: usable material, and accounts that can be made and closed. */
  ghost predicate Resourced(s: State, tx: Tx, i: Instr) {
    match i
    case AddAuthority(w, _, kind, role, policy) =>
      && Usable(kind) && ValidPolicy(policy)
      && CanCreate(s, tx, AuthorityAt(w, kind), tx.rent(AuthoritySpace(kind) + |policy|))
      && (role == 0 ==> At(s.data, w).Wallet? && At(s.data, w).ownerCount < U32_MAX)
    case RemoveAuthority(_, _, target, refund) => CanClose(s.lamports, target, refund)
    case TransferOwnership(w, current, kind, refund) =>
      && Usable(kind) && CanCreate(s, tx, AuthorityAt(w, kind), tx.rent(AuthoritySpace(kind)))
      && CanClose(Funded(s, tx, AuthorityAt(w, kind), tx.rent(AuthoritySpace(kind))), current, refund)
    case CreateSession(w, _, key, _, policy) =>
      ValidPolicy(policy) && CanCreate(s, tx, SessionKey(w, key), tx.rent(80 + |policy|))
    case RevokeSession(_, _, session, refund) => CanClose(s.lamports, session, refund)
    case Authorize(w, a, _, _, offset) =>
      s.slot + offset <= U64_MAX && CanCreate(s, tx, DeferredAddress(s, w, a), tx.rent(176))
    case _ => true
  }

  /** The instructions an authority manages its wallet with. */
  predicate Manages(i: Instr) {
    Actor(i).Some? && !i.Execute?
  }

  lemma RanksEntitle(s: State, tx: Tx, i: Instr, a: Address)
    requires (i.AddAuthority? || i.RemoveAuthority? || i.TransferOwnership?) && Actor(i) == Some(a) && Inv(s.data)
    requires PayerSigns(tx) && IsWallet(s, i.wallet) && Authenticates(s, tx, OrderOf(i), i.wallet, a)
    requires Resourced(s, tx, i)
    ensures Enabled(s, tx, i) <==> Entitled(s, i, a)
  {
    assert Shaped(s.data, a);
    if i.RemoveAuthority? {
      assert Shaped(s.data, i.target);
    }
  }

  lemma GrantsEntitle(s: State, tx: Tx, i: Instr, a: Address)
    requires (i.CreateSession? || i.RevokeSession? || i.Authorize?) && Actor(i) == Some(a) && Inv(s.data)
    requires PayerSigns(tx) && IsWallet(s, i.wallet) && Authenticates(s, tx, OrderOf(i), i.wallet, a)
    requires Resourced(s, tx, i)
    ensures Enabled(s, tx, i) <==> Entitled(s, i, a)
  {
    assert Shaped(s.data, a);
  }

  /** Given who asks and that it can be paid for, an instruction is accepted exactly when the table allows it. */
  lemma AcceptedIffEntitled(s: State, tx: Tx, i: Instr, a: Address)
    requires Manages(i) && Actor(i) == Some(a) && Inv(s.data)
    requires PayerSigns(tx) && IsWallet(s, i.wallet) && Authenticates(s, tx, OrderOf(i), i.wallet, a)
    requires Resourced(s, tx, i)
    ensures Enabled(s, tx, i) <==> Entitled(s, i, a)
  {
    if i.AddAuthority? || i.RemoveAuthority? || i.TransferOwnership? {
      RanksEntitle(s, tx, i, a);
    } else {
      GrantsEntitle(s, tx, i, a);
    }
  }

  /** An accepted RemoveAuthority closes its target and never its own actor. */
  lemma RemoverStays(s: State, tx: Tx, i: Instr, t: State)
    requires Step(s, tx, i, t) && Inv(s.data) && i.RemoveAuthority?
    ensures At(t.data, i.admin).Authority? && At(t.data, i.target) == Zeroed
    ensures At(t.data, i.admin).role == At(s.data, i.admin).role
  {
    RemoveFine(s, tx, i);
    assert Shaped(s.data, i.admin) && Shaped(s.data, i.target);
    Untouched(s, tx, i, i.admin);
  }

  /** A new account holds its rent, or what it held if that was more; the payer pays the difference. */
  lemma CreatedIsFunded(s: State, tx: Tx, target: Address, need: nat)
    requires CanCreate(s, tx, target, need)
    ensures var l := Funded(s, tx, target, need);
            && Lam(l, target) == (if Lam(s.lamports, target) >= need then Lam(s.lamports, target) else need)
            && Lam(l, target) - Lam(s.lamports, target) == Lam(s.lamports, tx.payer) - Lam(l, tx.payer)
            && forall k :: k != target && k != tx.payer ==> Lam(l, k) == Lam(s.lamports, k)
  {
  }

  /** A closed account holds nothing and its refund holds all of it. */
  lemma ClosedIsRefunded(l: map<Address, nat>, target: Address, refund: Address)
    requires CanClose(l, target, refund)
    ensures var d := Drained(l, target, refund);
            && Lam(d, target) == 0 && Lam(d, refund) == Lam(l, refund) + Lam(l, target)
            && forall k :: k != target && k != refund ==> Lam(d, k) == Lam(l, k)
  {
  }

  /** A wallet is made for any usable key by whoever can pay for both its accounts. */
  lemma WalletsCanBeMade(s: State, tx: Tx, seed: Key, kind: Kind)
    requires At(s.data, tx.payer).Empty? && tx.payer.User?
    ensures var w := WalletKey(seed);
            var a := AuthorityAt(w, kind);
            Enabled(s, tx, CreateWallet(seed, kind)) <==>
            && Usable(kind) && tx.payer in tx.signers && At(s.data, w).Empty? && At(s.data, a).Empty?
            && Short(s.lamports, w, tx.rent(8)) + Short(s.lamports, a, tx.rent(if kind.Ed25519? then 80 else 145))
               <= Lam(s.lamports, tx.payer)
  {
  }

  /**
   Whatever its rank, an authority that authenticates may execute, and so may a session up to its
   last slot; under a policy, exactly when the policy is charged with what the vault lost.
   */
  lemma ExecuteIsForAll(s: State, tx: Tx, i: Instr)
    requires i.Execute? && PayerSigns(tx) && IsWallet(s, i.wallet) && Inv(s.data)
    requires Effects(s.(data := Opened(s, i)), i.after, tx.signers + {VaultKey(i.wallet)})
    requires PolicyEngine.Runnable(i.policy)
    ensures var c := At(s.data, i.actor);
            Enabled(s, tx, i) <==>
            && (|| (c.Authority? && Authenticates(s, tx, ToExecute, i.wallet, i.actor))
                || (&& c.Session? && c.wallet == i.wallet && tx.topLevel && s.slot <= c.expiresAt
                    && User(c.key) in tx.signers))
            && (c.policy == [] ==> i.policy == [])
            && (c.policy != [] ==>
                  && |i.policy| == |c.policy| && Narrowing.ChargedBy(c.policy, i.policy, i.spend)
                  && i.spend.slot == s.slot
                  && i.spend.sol as int == Fall(s.lamports, i.after.lamports, VaultKey(i.wallet)))
  {
    assert Shaped(s.data, i.actor);
  }

  /** A pending authorization of the version before can be reclaimed the same way. */
  lemma LegacyReclaims(s: State, tx: Tx, deferred: Address)
    requires At(s.data, deferred).LegacyDeferred? && tx.payer == At(s.data, deferred).payer
    requires PayerSigns(tx) && CanClose(s.lamports, deferred, tx.payer)
    ensures Enabled(s, tx, ReclaimDeferred(deferred, tx.payer)) <==> s.slot > At(s.data, deferred).expiresAt
  {
  }

  /** Whoever pays for it, a deferred authorization of a wallet is, at every slot, either executable or reclaimable. */
  lemma DeferredEndsEitherWay(s: State, tx: Tx, deferred: Address)
    requires At(s.data, deferred).Deferred? && Inv(s.data) && tx.topLevel && tx.payer == At(s.data, deferred).payer
    requires PayerSigns(tx) && CanClose(s.lamports, deferred, tx.payer)
    ensures var d := At(s.data, deferred);
            && (CanStartDeferred(s, tx, d.wallet, deferred, d.payer, d.instructionsHash, d.accountsHash)
                <==> s.slot <= d.expiresAt)
            && (CanReclaim(s, tx, deferred, d.payer) <==> s.slot > d.expiresAt)
  {
    assert Shaped(s.data, deferred);
  }

  /** An address nothing was created at can be made by whoever can pay, though someone sent lamports to it before. */
  lemma PrefundedCanBeMade(s: State, tx: Tx, target: Address, need: nat)
    requires At(s.data, target).Empty? && At(s.data, tx.payer).Empty? && tx.payer != target
    ensures CanCreate(s, tx, target, need) <==> Lam(s.lamports, tx.payer) + Lam(s.lamports, target) >= need
  {
  }

  lemma {:induction false} AllZeroIff(s: seq<byte>)
    ensures AllZero(s) <==> forall i :: 0 <= i < |s| ==> s[i] == 0
  {
    if s != [] {
      AllZeroIff(s[1..]);
      assert forall i :: 0 < i < |s| ==> s[i] == s[1..][i - 1];
    }
  }

  /** Any key but the zero key is usable, and a passkey of 33 bytes under any credential but the zero one. */
  lemma UsableExactly(kind: Kind)
    ensures kind.Ed25519? ==> (Usable(kind) <==> exists i :: 0 <= i < 32 && kind.pubkey[i] != 0)
    ensures kind.Secp256r1? ==> (Usable(kind) <==>
              && |kind.passkey| == 33 && (exists i :: 0 <= i < 33 && kind.passkey[i] != 0)
              && (exists i :: 0 <= i < 32 && kind.credential[i] != 0))
  {
    match kind {
      case Ed25519(pubkey) => AllZeroIff(pubkey);
      case Secp256r1(credential, passkey, _) =>
        AllZeroIff(credential);
        AllZeroIff(passkey);
    }
  }

  /** Anyone can close a session, of either version, exactly from the slot after its last. */
  lemma ExpiredSessionsClose(s: State, tx: Tx, session: Address, refund: Address)
    requires At(s.data, session).Session? || At(s.data, session).LegacySession?
    requires PayerSigns(tx) && CanClose(s.lamports, session, refund)
    ensures Enabled(s, tx, CloseExpiredSession(session, refund)) <==> s.slot > At(s.data, session).expiresAt
  {
  }

  // ---------------------------------------------------------------------------
  // What each instruction leaves
  // ---------------------------------------------------------------------------

  /** A new wallet has one Owner, whose odometer stands at zero. */
  lemma CreateLeaves(s: State, tx: Tx, i: Instr, t: State)
    requires Step(s, tx, i, t) && i.CreateWallet?
    ensures At(t.data, WalletKey(i.seed)) == Wallet(1)
    ensures At(t.data, AuthorityAt(WalletKey(i.seed), i.kind)) == Authority(WalletKey(i.seed), i.kind, 0, 0, [])
  {
    ClosingFineAlone(s, tx, i);
  }

  lemma ClosingFineAlone(s: State, tx: Tx, i: Instr)
    requires i.CreateWallet? && Enabled(s, tx, i)
    ensures Opened(s, i) == s.data && Fine(s.data, Birth(WalletKey(i.seed), i.kind))
  {
  }

  /** An added authority has the rank and policy it was given and starts at zero; an Owner is counted. */
  lemma AddLeaves(s: State, tx: Tx, i: Instr, t: State)
    requires Step(s, tx, i, t) && Inv(s.data) && i.AddAuthority?
    ensures At(t.data, AuthorityAt(i.wallet, i.kind)) == Authority(i.wallet, i.kind, i.role, 0, i.policy)
    ensures At(t.data, i.wallet) == Wallet(At(s.data, i.wallet).ownerCount + if i.role == 0 then 1 else 0)
  {
    AddFine(s, tx, i);
    assert Shaped(s.data, i.wallet);
    Untouched(s, tx, i, i.wallet);
  }

  /** A removed one is gone, its lamports are the refund's, and an Owner is no longer counted. */
  lemma RemoveLeaves(s: State, tx: Tx, i: Instr, t: State)
    requires Step(s, tx, i, t) && Inv(s.data) && i.RemoveAuthority?
    ensures At(t.data, i.target) == Zeroed && Lam(t.lamports, i.target) == 0
    ensures Lam(t.lamports, i.refund) == Lam(s.lamports, i.refund) + Lam(s.lamports, i.target)
    ensures At(t.data, i.wallet) ==
            Wallet(At(s.data, i.wallet).ownerCount - if At(s.data, i.target).role == 0 then 1 else 0)
  {
    RemoveFine(s, tx, i);
    assert Shaped(s.data, i.wallet) && Shaped(s.data, i.target) && Shaped(s.data, i.admin);
    Untouched(s, tx, i, i.wallet);
    Untouched(s, tx, i, i.target);
    ClosedIsRefunded(s.lamports, i.target, i.refund);
  }

  /** Ownership handed over: the new Owner is there, the old one gone, the count as it was. */
  lemma TransferLeaves(s: State, tx: Tx, i: Instr, t: State)
    requires Step(s, tx, i, t) && Inv(s.data) && i.TransferOwnership?
    ensures At(t.data, AuthorityAt(i.wallet, i.kind)) == Authority(i.wallet, i.kind, 0, 0, [])
    ensures At(t.data, i.current) == Zeroed && Lam(t.lamports, i.current) == 0
    ensures At(t.data, i.wallet) == At(s.data, i.wallet)
  {
    ClosingFine(s, tx, i);
    assert Shaped(s.data, i.wallet) && Shaped(s.data, i.current);
    Untouched(s, tx, i, i.wallet);
  }

  /** A session has the key, the end and the policy it was asked for. */
  lemma SessionLeaves(s: State, tx: Tx, i: Instr, t: State)
    requires Step(s, tx, i, t) && Inv(s.data) && i.CreateSession?
    ensures At(t.data, SessionKey(i.wallet, i.key)) == Session(i.wallet, i.key, i.expiresAt, i.policy)
  {
    SessionFine(s, tx, i);
  }

  /** A revoked or expired one is gone, and its lamports are the refund's. */
  lemma SessionEnds(s: State, tx: Tx, i: Instr, t: State)
    requires Step(s, tx, i, t) && Inv(s.data) && (i.RevokeSession? || i.CloseExpiredSession?)
    ensures At(t.data, i.session) == Zeroed && Lam(t.lamports, i.session) == 0
    ensures Lam(t.lamports, i.refund) == Lam(s.lamports, i.refund) + Lam(s.lamports, i.session)
  {
    ClosingFine(s, tx, i);
    ClosedIsRefunded(s.lamports, i.session, i.refund);
  }

  /** An authorization is written for the payer, at the address of the counter just used, to end on time. */
  lemma AuthorizeLeaves(s: State, tx: Tx, i: Instr, t: State)
    requires Step(s, tx, i, t) && Inv(s.data) && i.Authorize?
    ensures At(s.data, i.authority).Authority?
    ensures var k := DeferredKey(i.wallet, i.authority, At(s.data, i.authority).counter + 1);
            && At(t.data, k).Deferred? && At(t.data, k).expiresAt as int == s.slot + i.expiryOffset
            && At(t.data, k).wallet == i.wallet && At(t.data, k).authority == i.authority
            && At(t.data, k).payer == tx.payer
            && At(t.data, k).instructionsHash == i.instructionsHash && At(t.data, k).accountsHash == i.accountsHash
    ensures At(t.data, i.authority).Authority? && At(t.data, i.authority).counter == At(s.data, i.authority).counter + 1
  {
    AuthorizeFine(s, tx, i);
    assert Shaped(s.data, i.authority);
    Untouched(s, tx, i, i.authority);
  }
}
