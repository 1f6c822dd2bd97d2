/**
 What a passkey's assertions do over whole runs of the wallet program: each names the wallet, the
 counter and the order it is for, and through one life of an authority it is used once.
 */
module SignedOrders {
  import opened Bytes
  import opened Chain
  import opened Registry
  import opened WalletProgram
  import D = DeferredLife

  predicate IsPasskey(s: State, a: Address) {
    At(s.data, a).Authority? && At(s.data, a).kind.Secp256r1?
  }

  /** The passkey authority `a` authenticates `i`. */
  predicate ActsByPasskey(s: State, i: Instr, a: Address) {
    Actor(i) == Some(a) && IsPasskey(s, a)
  }

  /** The assertion that takes. */
  function Needed(s: State, tx: Tx, i: Instr, a: Address): Assertion
    requires ActsByPasskey(s, i, a)
  {
    Assertion(At(s.data, a).kind.passkey, tx.payer, i.wallet, At(s.data, a).counter + 1, OrderOf(i))
  }

  lemma ActorAuthenticates(s: State, tx: Tx, i: Instr, a: Address)
    requires Enabled(s, tx, i) && Actor(i) == Some(a) && At(s.data, a).Authority?
    ensures Authenticates(s, tx, OrderOf(i), i.wallet, a)
  {
    match i {
      case AddAuthority(w, admin, kind, role, policy) => assert MayAdd(s, tx, w, admin, kind, role, policy);
      case RemoveAuthority(w, admin, target, refund) => assert MayRemove(s, tx, w, admin, target, refund);
      case TransferOwnership(w, current, kind, refund) => assert MayTransfer(s, tx, w, current, kind, refund);
      case CreateSession(w, opener, key, expiresAt, policy) => assert MayOpen(s, tx, w, opener, key, expiresAt, policy);
      case RevokeSession(w, admin, session, refund) => assert CanRevokeSession(s, tx, w, admin, session, refund);
      case Authorize(w, authority, ih, ah, offset) => assert MayAuthorize(s, tx, w, authority, ih, ah, offset);
      case Execute(w, actor, _, _, _) => assert CanExecute(s, tx, w, actor);
    }
  }

  /** Nothing acts through a passkey without its assertion for this very order, on its own wallet. */
  lemma StepNeedsAssertion(s: State, tx: Tx, i: Instr, t: State, a: Address)
    requires Step(s, tx, i, t) && ActsByPasskey(s, i, a)
    ensures Needed(s, tx, i, a) in tx.assertions && At(s.data, a).wallet == i.wallet
  {
    ActorAuthenticates(s, tx, i, a);
  }

  lemma CounterMoves(s: State, tx: Tx, i: Instr, a: Address)
    requires Enabled(s, tx, i) && Inv(s.data) && ActsByPasskey(s, i, a) && !i.TransferOwnership?
    ensures At(Between(s, i), a).Authority? && At(Between(s, i), a).counter == At(s.data, a).counter + 1
  {
    assert Shaped(s.data, a);
    Untouched(s, tx, i, a);
  }

  /** Whoever hands ownership over is closed. */
  lemma TransferCloses(s: State, tx: Tx, i: Instr, t: State, a: Address)
    requires Step(s, tx, i, t) && Inv(s.data) && i.TransferOwnership? && i.current == a
    ensures !At(t.data, a).Authority?
  {
    ClosingFine(s, tx, i);
  }

  lemma ActingCounts(s: State, tx: Tx, i: Instr, t: State, a: Address)
    requires Step(s, tx, i, t) && Inv(s.data) && ActsByPasskey(s, i, a) && At(t.data, a).Authority?
    ensures D.CounterAt(t, a) == D.CounterAt(s, a) + 1
  {
    if i.TransferOwnership? {
      TransferCloses(s, tx, i, t, a);
    } else {
      CounterMoves(s, tx, i, a);
      if Closing(s, tx, i).Some? {
        ClosingFine(s, tx, i);
        D.EditOnCounter(Between(s, i), Closing(s, tx, i).value, a);
      }
    }
  }

  predicate ActsAt(r: Run, n: nat, a: Address)
    requires Lengths(r) && n < |r.instrs|
  {
    ActsByPasskey(r.states[n], r.instrs[n], a)
  }

  function UsedAt(r: Run, n: nat, a: Address): Assertion
    requires Lengths(r) && n < |r.instrs| && ActsAt(r, n, a)
  {
    Needed(r.states[n], r.txs[n], r.instrs[n], a)
  }

  lemma ActingGrows(r: Run, m: nat, n: nat, a: Address)
    requires IsRun(r) && Initial(r.states[0]) && m < n < |r.states| && ActsAt(r, m, a)
    requires forall j :: m <= j <= n ==> D.StillThere(r, j, a)
    ensures D.CounterAt(r.states[m], a) < D.CounterAt(r.states[n], a)
  {
    InvReached(r, m);
    assert StepAt(r, m) && D.StillThere(r, m + 1, a);
    ActingCounts(r.states[m], r.txs[m], r.instrs[m], r.states[m + 1], a);
    D.CounterGrows(r, a, m + 1, n);
  }

  /** Two uses of one assertion by an authority have its close between them. */
  lemma AssertionIsUsedOnce(r: Run, m: nat, n: nat, a: Address)
    requires IsRun(r) && Initial(r.states[0]) && m < n < |r.instrs|
    requires ActsAt(r, m, a) && ActsAt(r, n, a) && UsedAt(r, m, a) == UsedAt(r, n, a)
    ensures exists j :: m < j < n && !D.StillThere(r, j, a)
  {
    if forall j :: m < j < n ==> D.StillThere(r, j, a) {
      assert D.StillThere(r, m, a) && D.StillThere(r, n, a);
      ActingGrows(r, m, n, a);
    }
  }

  /** And whoever uses one assertion, whenever, does with it the same thing on the same wallet. */
  lemma AssertionDoesOneThing(r: Run, m: nat, n: nat, a: Address, b: Address)
    requires IsRun(r) && Initial(r.states[0]) && m < |r.instrs| && n < |r.instrs|
    requires ActsAt(r, m, a) && ActsAt(r, n, b) && UsedAt(r, m, a) == UsedAt(r, n, b)
    ensures OrderOf(r.instrs[m]) == OrderOf(r.instrs[n]) && r.txs[m].payer == r.txs[n].payer
    ensures At(r.states[m].data, a).wallet == At(r.states[n].data, b).wallet
    ensures D.CounterAt(r.states[m], a) == D.CounterAt(r.states[n], b)
  {
    assert StepAt(r, m) && StepAt(r, n);
    StepNeedsAssertion(r.states[m], r.txs[m], r.instrs[m], r.states[m + 1], a);
    StepNeedsAssertion(r.states[n], r.txs[n], r.instrs[n], r.states[n + 1], b);
  }
}
