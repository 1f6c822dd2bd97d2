/**
 The life of a deferred authorization, from Authorize to the one instruction that ends it, and
 where every lamport goes.
 */
module DeferredLife {
  import opened Bytes
  import opened Chain
  import opened Registry
  import opened WalletProgram
  import Sums

  // ---------------------------------------------------------------------------
  // Lamports
  // ---------------------------------------------------------------------------

  /** Inner calls, and everyone else, conserve lamports. */
  lemma CallsConserve(s: State, tx: Tx, i: Instr)
    requires Enabled(s, tx, i) && HasAfter(i)
    ensures Sums.Sum(i.after.lamports) == Sums.Sum(s.lamports)
  {
    match i {
      case ExecuteDeferred(w, _, _, _, _, after) =>
        assert Effects(s.(data := Opened(s, i)), after, InnerSigners(tx, w));
      case Execute(w, _, _, _, after) =>
        assert Effects(s.(data := Opened(s, i)), after, InnerSigners(tx, w));
      case MigrateWallet(vault, after) =>
        assert Effects(s, after, tx.signers + {vault});
      case Outside(after) =>
        assert Effects(s, after.(slot := s.slot), tx.signers);
    }
  }

  /** Creating and closing program accounts conserves them. */
  lemma MovesConserve(s: State, tx: Tx, i: Instr)
    requires !HasAfter(i)
    ensures Sums.Sum(LamportsAfter(s, tx, i)) == Sums.Sum(s.lamports)
  {
    match i {
      case CreateWallet(seed, kind) =>
        var w := WalletKey(seed);
        FundConserves(s, tx, w, MinimumBalance(tx, WALLET_SPACE));
        var l := s.(lamports := Funded(s, tx, w, MinimumBalance(tx, WALLET_SPACE)));
        FundConserves(l, tx, AuthorityAt(w, kind), MinimumBalance(tx, AuthoritySpace(kind)));
      case AddAuthority(w, _, kind, _, policy) =>
        FundConserves(s, tx, AuthorityAt(w, kind), MinimumBalance(tx, AuthoritySpace(kind) + |policy|));
      case RemoveAuthority(_, _, target, refund) => DrainConserves(s.lamports, target, refund);
      case TransferOwnership(w, current, kind, refund) =>
        var need := MinimumBalance(tx, AuthoritySpace(kind));
        FundConserves(s, tx, AuthorityAt(w, kind), need);
        DrainConserves(Funded(s, tx, AuthorityAt(w, kind), need), current, refund);
      case CreateSession(w, _, key, _, policy) =>
        FundConserves(s, tx, SessionKey(w, key), MinimumBalance(tx, SESSION_SPACE + |policy|));
      case RevokeSession(_, _, session, refund) => DrainConserves(s.lamports, session, refund);
      case CloseExpiredSession(session, refund) => DrainConserves(s.lamports, session, refund);
      case Authorize(w, authority, _, _, _) =>
        FundConserves(s, tx, DeferredAddress(s, w, authority), MinimumBalance(tx, DEFERRED_SPACE));
      case ReclaimDeferred(deferred, refund) => DrainConserves(s.lamports, deferred, refund);
      case Purge(_) =>
    }
  }

  /** No instruction makes or loses a lamport. */
  lemma LamportsConserved(s: State, tx: Tx, i: Instr, t: State)
    requires Step(s, tx, i, t)
    ensures Sums.Sum(t.lamports) == Sums.Sum(s.lamports)
  {
    if HasAfter(i) {
      CallsConserve(s, tx, i);
      if i.ExecuteDeferred? {
        DrainConserves(i.after.lamports, i.deferred, i.refund);
      }
    } else {
      MovesConserve(s, tx, i);
    }
  }

  lemma FundConserves(s: State, tx: Tx, target: Address, need: nat)
    ensures Sums.Sum(Funded(s, tx, target, need)) == Sums.Sum(s.lamports)
  {
    MoveConserves(s.lamports, tx.payer, target, Short(s.lamports, target, need));
  }

  lemma DrainConserves(l: map<Address, nat>, target: Address, refund: Address)
    ensures Sums.Sum(Drained(l, target, refund)) == Sums.Sum(l)
  {
    MoveConserves(l, target, refund, Lam(l, target));
  }

  lemma {:induction false} RunConserves(r: Run, n: nat)
    requires IsRun(r) && n < |r.states|
    ensures Sums.Sum(r.states[n].lamports) == Sums.Sum(r.states[0].lamports)
  {
    if n > 0 {
      RunConserves(r, n - 1);
      assert StepAt(r, n - 1);
      LamportsConserved(r.states[n - 1], r.txs[n - 1], r.instrs[n - 1], r.states[n]);
    }
  }

  // ---------------------------------------------------------------------------
  // One step
  // ---------------------------------------------------------------------------

  predicate Pending(s: State, k: Address) {
    At(s.data, k).Deferred?
  }

  /** The instruction executes or reclaims `k`. */
  predicate Ends(i: Instr, k: Address) {
    (i.ExecuteDeferred? || i.ReclaimDeferred?) && i.deferred == k
  }

  /** The instruction authorizes at `k`. */
  predicate Creates(s: State, i: Instr, k: Address) {
    i.Authorize? && DeferredAddress(s, i.wallet, i.authority) == k
  }

  /** The lamports when the rent moves: after the inner calls, if there are any. */
  function AtClose(s: State, i: Instr): map<Address, nat> {
    if i.ExecuteDeferred? then i.after.lamports else s.lamports
  }

  /**
   An authorization ends by execution up to its expiry or by reclaim past it. Its record is gone
   and its whole balance, whatever the inner calls credited, is with the payer it names.
   */
  lemma EndsInTime(s: State, tx: Tx, i: Instr, t: State, k: Address)
    requires Step(s, tx, i, t) && Inv(s.data) && Ends(i, k) && Derived(k)
    ensures Pending(s, k) && At(t.data, k).Zeroed?
    ensures i.ExecuteDeferred? ==> s.slot <= At(s.data, k).expiresAt
    ensures i.ReclaimDeferred? ==> s.slot > At(s.data, k).expiresAt && At(s.data, k).payer in tx.signers
    ensures var p := At(s.data, k).payer;
            Lam(t.lamports, k) == 0 && Lam(t.lamports, p) == Lam(AtClose(s, i), p) + Lam(AtClose(s, i), k)
  {
    assert Shaped(s.data, k);
    if i.ExecuteDeferred? {
      Untouched(s, tx, i, k);
    } else {
      ClosingFine(s, tx, i);
    }
  }

  /** While the inner calls run, whatever they do, the authorization cannot be used again. */
  lemma ConsumedDuringCalls(s: State, tx: Tx, w: Address, k: Address, refund: Address, ih: Key, ah: Key, m: State)
    requires Inv(s.data) && CanStartDeferred(s, tx, w, k, refund, ih, ah)
    requires Effects(s.(data := Do(s.data, Erase(k))), m, InnerSigners(tx, w))
    ensures At(m.data, k).Zeroed?
    ensures forall tx2, w2, refund2, ih2, ah2 :: !CanStartDeferred(m, tx2, w2, k, refund2, ih2, ah2)
    ensures forall tx2, refund2 :: !CanReclaim(m, tx2, k, refund2)
  {
    assert Shaped(s.data, k);
  }

  /** A pending authorization was written by Authorize, from its arguments. */
  predicate WrittenBy(s: State, tx: Tx, i: Instr, c: Content) {
    && i.Authorize? && c.Deferred?
    && c.wallet == i.wallet && c.authority == i.authority && c.payer == tx.payer
    && c.instructionsHash == i.instructionsHash && c.accountsHash == i.accountsHash
    && c.expiresAt == s.slot + i.expiryOffset && MIN_EXPIRY_SLOTS <= i.expiryOffset <= MAX_EXPIRY_SLOTS
  }

  lemma EditOnDeferred(d: Records, e: Edit, k: Address)
    requires Fine(d, e) && At(Do(d, e), k).Deferred?
    ensures At(d, k) == At(Do(d, e), k) ||
              (e.Promise? && k == DeferredKey(e.w, e.authority, e.counter) && At(d, k).Empty?)
  {
  }

  lemma PendingBetween(s: State, tx: Tx, i: Instr, k: Address)
    requires Enabled(s, tx, i) && Inv(s.data) && At(Between(s, i), k).Deferred?
    ensures At(Between(s, i), k) == At(s.data, k)
  {
    BetweenInv(s, tx, i);
    assert Shaped(Between(s, i), k);
    Untouched(s, tx, i, k);
    if Opening(s, i).Some? {
      OpeningFine(s, tx, i);
    }
  }

  lemma EmptyBetween(s: State, tx: Tx, i: Instr, k: Address)
    requires Enabled(s, tx, i) && Inv(s.data) && Derived(k) && At(Between(s, i), k).Empty?
    ensures !Pending(s, k)
  {
    Untouched(s, tx, i, k);
    if Opening(s, i).Some? {
      OpeningFine(s, tx, i);
    }
  }

  lemma PendingAfter(s: State, tx: Tx, i: Instr, t: State, k: Address)
    requires Step(s, tx, i, t) && Inv(s.data) && Pending(t, k)
    ensures At(t.data, k) == At(s.data, k) || (Creates(s, i, k) && WrittenBy(s, tx, i, At(t.data, k)) && !Pending(s, k))
    ensures !Ends(i, k)
  {
    InvStep(s, tx, i, t);
    assert Shaped(t.data, k);
    if Ends(i, k) {
      EndsInTime(s, tx, i, t, k);
    }
    if Closing(s, tx, i).Some? {
      ClosingFine(s, tx, i);
      EditOnDeferred(Between(s, i), Closing(s, tx, i).value, k);
    }
    if At(Between(s, i), k).Deferred? {
      PendingBetween(s, tx, i, k);
    } else {
      EmptyBetween(s, tx, i, k);
    }
  }

  // ---------------------------------------------------------------------------
  // Runs
  // ---------------------------------------------------------------------------

  predicate EndsAt(r: Run, n: nat, k: Address)
    requires Lengths(r) && n < |r.instrs|
  {
    Ends(r.instrs[n], k)
  }

  predicate CreatesAt(r: Run, n: nat, k: Address)
    requires Lengths(r) && n < |r.instrs|
  {
    Creates(r.states[n], r.instrs[n], k)
  }

  lemma StepPending(r: Run, n: nat, k: Address)
    requires IsRun(r) && Initial(r.states[0]) && n < |r.instrs| && Pending(r.states[n + 1], k)
    ensures !EndsAt(r, n, k)
    ensures At(r.states[n + 1].data, k) == At(r.states[n].data, k)
         || (CreatesAt(r, n, k) && WrittenBy(r.states[n], r.txs[n], r.instrs[n], At(r.states[n + 1].data, k)) &&
             !Pending(r.states[n], k))
  {
    InvReached(r, n);
    assert StepAt(r, n);
    PendingAfter(r.states[n], r.txs[n], r.instrs[n], r.states[n + 1], k);
  }

  /** When what is pending at `n` was authorized. */
  lemma {:induction false} WasAuthorized(r: Run, n: nat, k: Address) returns (m: nat)
    requires IsRun(r) && Initial(r.states[0]) && n < |r.states| && Pending(r.states[n], k)
    ensures m < n && CreatesAt(r, m, k)
    ensures WrittenBy(r.states[m], r.txs[m], r.instrs[m], At(r.states[n].data, k))
    ensures forall j :: m < j <= n ==> At(r.states[j].data, k) == At(r.states[n].data, k)
    ensures forall j :: m <= j < n ==> !EndsAt(r, j, k)
  {
    if n == 0 {
      assert false;
    } else {
      StepPending(r, n - 1, k);
      if Pending(r.states[n - 1], k) {
        m := WasAuthorized(r, n - 1, k);
      } else {
        m := n - 1;
      }
    }
  }

  lemma EndedWasPending(r: Run, n: nat, k: Address)
    requires IsRun(r) && Initial(r.states[0]) && n < |r.instrs| && EndsAt(r, n, k) && Derived(k)
    ensures Pending(r.states[n], k)
    ensures r.instrs[n].ExecuteDeferred? ==>
              && r.states[n].slot <= At(r.states[n].data, k).expiresAt
              && At(r.states[n].data, k).instructionsHash == r.instrs[n].instructionsHash
              && At(r.states[n].data, k).accountsHash == r.instrs[n].accountsHash
    ensures r.instrs[n].ReclaimDeferred? ==> r.states[n].slot > At(r.states[n].data, k).expiresAt
  {
    InvReached(r, n);
    assert StepAt(r, n);
    EndsInTime(r.states[n], r.txs[n], r.instrs[n], r.states[n + 1], k);
  }

  /**
   Every execution was authorized: with these very hashes, by an authority of that wallet, at
   most 9000 slots before, and nothing ended the authorization in between.
   */
  lemma ExecutionWasAuthorized(r: Run, n: nat, k: Address) returns (m: nat)
    requires IsRun(r) && Initial(r.states[0]) && n < |r.instrs|
    requires EndsAt(r, n, k) && r.instrs[n].ExecuteDeferred? && Derived(k)
    ensures m < n && CreatesAt(r, m, k) && r.instrs[m].wallet == r.instrs[n].wallet
    ensures r.instrs[m].instructionsHash == r.instrs[n].instructionsHash
    ensures r.instrs[m].accountsHash == r.instrs[n].accountsHash
    ensures r.states[n].slot <= r.states[m].slot + r.instrs[m].expiryOffset <= r.states[m].slot + MAX_EXPIRY_SLOTS
    ensures forall j :: m <= j < n ==> !EndsAt(r, j, k)
  {
    EndedWasPending(r, n, k);
    m := WasAuthorized(r, n, k);
    assert StepAt(r, n);
  }

  /** Two endings of one address have an authorization between them: each one ends once. */
  lemma EndsOnce(r: Run, n1: nat, n2: nat, k: Address) returns (m: nat)
    requires IsRun(r) && Initial(r.states[0]) && n1 < n2 < |r.instrs|
    requires EndsAt(r, n1, k) && EndsAt(r, n2, k) && Derived(k)
    ensures n1 < m < n2 && CreatesAt(r, m, k)
  {
    EndedWasPending(r, n2, k);
    m := WasAuthorized(r, n2, k);
  }

  // ---------------------------------------------------------------------------
  // The counter keeps addresses apart
  // ---------------------------------------------------------------------------

  function CounterAt(s: State, a: Address): nat {
    if At(s.data, a).Authority? then At(s.data, a).counter else 0
  }

  lemma EditOnCounter(d: Records, e: Edit, a: Address)
    requires Fine(d, e) && At(d, a).Authority? && At(Do(d, e), a).Authority?
    ensures At(Do(d, e), a).counter == At(d, a).counter + if e == Tick(a) && At(d, a).kind.Secp256r1? then 1 else 0
  {
  }

  lemma CounterBetween(s: State, tx: Tx, i: Instr, a: Address)
    requires Enabled(s, tx, i) && Inv(s.data) && At(s.data, a).Authority?
    ensures At(Between(s, i), a).Authority?
    ensures At(Between(s, i), a).counter >= At(s.data, a).counter
    ensures i.Authorize? && i.authority == a ==> At(Between(s, i), a).counter == At(s.data, a).counter + 1
  {
    assert Shaped(s.data, a);
    Untouched(s, tx, i, a);
    if Opening(s, i).Some? {
      OpeningFine(s, tx, i);
    }
  }

  lemma CounterAfter(s: State, tx: Tx, i: Instr, t: State, a: Address)
    requires Step(s, tx, i, t) && Inv(s.data) && At(s.data, a).Authority? && At(t.data, a).Authority?
    ensures CounterAt(t, a) >= CounterAt(s, a)
    ensures i.Authorize? && i.authority == a ==> CounterAt(t, a) == CounterAt(s, a) + 1
  {
    CounterBetween(s, tx, i, a);
    if Closing(s, tx, i).Some? {
      ClosingFine(s, tx, i);
      EditOnCounter(Between(s, i), Closing(s, tx, i).value, a);
    }
  }

  predicate StillThere(r: Run, n: nat, a: Address)
    requires n < |r.states|
  {
    At(r.states[n].data, a).Authority?
  }

  lemma {:induction false} CounterGrows(r: Run, a: Address, m: nat, n: nat)
    requires IsRun(r) && Initial(r.states[0]) && m <= n < |r.states|
    requires forall j :: m <= j <= n ==> StillThere(r, j, a)
    ensures CounterAt(r.states[m], a) <= CounterAt(r.states[n], a)
    decreases n
  {
    if m < n {
      CounterGrows(r, a, m, n - 1);
      InvReached(r, n - 1);
      assert StepAt(r, n - 1) && StillThere(r, n - 1, a) && StillThere(r, n, a);
      CounterAfter(r.states[n - 1], r.txs[n - 1], r.instrs[n - 1], r.states[n], a);
    }
  }

  /** What authorizing at `k` means for the counter of its authority. */
  lemma CreationCounts(r: Run, n: nat, k: Address)
    requires IsRun(r) && Initial(r.states[0]) && n < |r.instrs| && CreatesAt(r, n, k)
    ensures k.DeferredKey? && StillThere(r, n, k.authority) && CounterAt(r.states[n], k.authority) + 1 == k.counter
    ensures StillThere(r, n + 1, k.authority) ==> CounterAt(r.states[n + 1], k.authority) == k.counter
  {
    InvReached(r, n);
    assert StepAt(r, n);
    if StillThere(r, n + 1, k.authority) {
      CounterAfter(r.states[n], r.txs[n], r.instrs[n], r.states[n + 1], k.authority);
    }
  }

  /** An address is authorized twice only if its authority was closed in between. */
  lemma AddressIsFreshPerLife(r: Run, m: nat, n: nat, k: Address)
    requires IsRun(r) && Initial(r.states[0]) && m < n < |r.instrs|
    requires CreatesAt(r, m, k) && CreatesAt(r, n, k)
    ensures exists j :: m < j < n && !StillThere(r, j, k.authority)
  {
    CreationCounts(r, m, k);
    CreationCounts(r, n, k);
    if forall j :: m < j < n ==> StillThere(r, j, k.authority) {
      CounterGrows(r, k.authority, m + 1, n);
    }
  }
}
