/**
 No escalation: who may appear on a wallet, and on whose authentication.
 */
module Escalation {
  import opened Bytes
  import opened Chain
  import opened Registry
  import opened WalletProgram
  import opened Narrowing

  /** An authority of this rank on `w` authenticated the instruction. */
  predicate ActsAs(s: State, tx: Tx, i: Instr, w: Address, rank: byte) {
    Actor(i).Some? && Authenticates(s, tx, OrderOf(i), w, Actor(i).value) && At(s.data, Actor(i).value).role == rank
  }

  predicate ActsAt(r: Run, n: nat, w: Address, rank: byte)
    requires Lengths(r) && n < |r.instrs|
  {
    ActsAs(r.states[n], r.txs[n], r.instrs[n], w, rank)
  }

  lemma RanksBetween(s: State, tx: Tx, i: Instr, w: Address, rank: byte)
    requires Enabled(s, tx, i) && Inv(s.data)
    ensures Ranked(Between(s, i), w, rank) == Ranked(s.data, w, rank)
  {
    if Opening(s, i).Some? {
      OpeningFine(s, tx, i);
      RankedDone(s.data, Opening(s, i).value, w, rank);
    }
    OpenedKeeps(s, tx, i);
    BetweenAgrees(s, tx, i);
    RankedAgrees(Opened(s, i), Between(s, i), w, rank);
  }

  lemma RanksAfter(s: State, tx: Tx, i: Instr, t: State, w: Address, rank: byte)
    requires Step(s, tx, i, t) && Inv(s.data)
    ensures Closing(s, tx, i).None? ==> Ranked(t.data, w, rank) == Ranked(s.data, w, rank)
    ensures Closing(s, tx, i).Some? ==>
              && Fine(Between(s, i), Closing(s, tx, i).value)
              && Ranked(t.data, w, rank) == RankedBy(Between(s, i), Closing(s, tx, i).value, w, rank)
  {
    RanksBetween(s, tx, i, w, rank);
    if Closing(s, tx, i).Some? {
      ClosingFine(s, tx, i);
      RankedDone(Between(s, i), Closing(s, tx, i).value, w, rank);
    }
  }

  /** In every reachable state a wallet's stored count is the number of its Owners, and there is one. */
  lemma OwnersAreCounted(r: Run, n: nat, w: Address)
    requires IsRun(r) && Initial(r.states[0]) && n < |r.states| && IsWallet(r.states[n], w)
    ensures 1 <= At(r.states[n].data, w).ownerCount == |Ranked(r.states[n].data, w, OWNER)|
  {
    InvReached(r, n);
    assert Counted(r.states[n].data, w);
  }

  /** One step: Owners and Admins of a wallet change only when one of its Owners acts. */
  lemma RanksKept(s: State, tx: Tx, i: Instr, t: State, w: Address, rank: byte)
    requires Step(s, tx, i, t) && Inv(s.data) && IsWallet(s, w)
    requires rank in {OWNER, ADMIN} && !ActsAs(s, tx, i, w, OWNER)
    ensures Ranked(t.data, w, rank) == Ranked(s.data, w, rank)
  {
    RanksAfter(s, tx, i, t, w, rank);
    RanksBetween(s, tx, i, w, rank);
    match i {
      case CreateWallet(seed, _) =>
      case AddAuthority(_, _, _, _, _) =>
      case RemoveAuthority(_, _, target, _) => RankedAt(s.data, w, rank, target);
      case TransferOwnership(_, _, _, _) =>
      case _ =>
    }
  }

  /** Over a stretch in which no Owner of the wallet authenticates, neither set moves. */
  lemma {:induction false} OwnersDecideRanks(r: Run, w: Address, m: nat, n: nat)
    requires IsRun(r) && Initial(r.states[0]) && m <= n < |r.states| && IsWallet(r.states[m], w)
    requires forall j :: m <= j < n ==> !ActsAt(r, j, w, OWNER)
    ensures IsWallet(r.states[n], w)
    ensures Ranked(r.states[n].data, w, OWNER) == Ranked(r.states[m].data, w, OWNER)
    ensures Ranked(r.states[n].data, w, ADMIN) == Ranked(r.states[m].data, w, ADMIN)
    decreases n
  {
    if m < n {
      OwnersDecideRanks(r, w, m, n - 1);
      var s, tx, i, t := r.states[n - 1], r.txs[n - 1], r.instrs[n - 1], r.states[n];
      InvReached(r, n - 1);
      assert StepAt(r, n - 1) && !ActsAt(r, n - 1, w, OWNER);
      RanksKept(s, tx, i, t, w, OWNER);
      RanksKept(s, tx, i, t, w, ADMIN);
      WalletKept(s, tx, i, t, w);
    }
  }

  lemma WalletKept(s: State, tx: Tx, i: Instr, t: State, w: Address)
    requires Step(s, tx, i, t) && Inv(s.data) && IsWallet(s, w)
    ensures IsWallet(t, w)
  {
    assert Shaped(s.data, w);
    Untouched(s, tx, i, w);
    if Opening(s, i).Some? {
      OpeningFine(s, tx, i);
    }
    if Closing(s, tx, i).Some? {
      ClosingFine(s, tx, i);
      WalletsStay(Between(s, i), Closing(s, tx, i).value, w);
    }
  }

  // ---------------------------------------------------------------------------
  // Nothing appears by itself
  // ---------------------------------------------------------------------------

  /** A record of wallet `w`: an authority, a session or a deferred authorization. */
  predicate On(c: Content, w: Address) {
    Homed(c) && c.wallet == w
  }

  /** The same thing with the same rights, or less left to spend; a passkey's counter aside. */
  ghost predicate SameRights(a: Content, b: Content)
    requires Homed(a)
  {
    match a
    case Authority(w, kind, role, _, policy) =>
      b.Authority? && b.wallet == w && b.kind == kind && b.role == role && Narrowed(policy, b.policy)
    case Session(w, key, expiresAt, policy) =>
      b.Session? && b.wallet == w && b.key == key && b.expiresAt == expiresAt && Narrowed(policy, b.policy)
    case Deferred(_, _, _, _, _, _) => b == a
  }

  lemma SameRightsTrans(a: Content, b: Content, c: Content)
    requires Homed(a) && SameRights(a, b) && Homed(b) && SameRights(b, c)
    ensures SameRights(a, c)
  {
    if !a.Deferred? {
      NarrowedTrans(a.policy, b.policy, c.policy);
    }
  }

  /** An edit that adds no record to `w` leaves only records that were there. */
  predicate AddsTo(e: Edit, w: Address) {
    match e
    case Birth(v, _) => v == w
    case Grant(v, _, _, _) => v == w
    case Swap(v, _, _) => v == w
    case Open(v, _, _, _) => v == w
    case Promise(v, _, _, _, _, _, _) => v == w
    case _ => false
  }

  lemma EditAddsNothing(d: Records, e: Edit, w: Address, k: Address)
    requires Fine(d, e) && !AddsTo(e, w) && On(At(Do(d, e), k), w)
    ensures On(At(d, k), w) && SameRights(At(d, k), At(Do(d, e), k))
  {
    if e.Settle? && e.k == k {
      SettledNarrows(At(d, k).policy, e.policy, e.spend);
    }
  }

  lemma NothingBetween(s: State, tx: Tx, i: Instr, w: Address, k: Address)
    requires Enabled(s, tx, i) && Inv(s.data) && On(At(Between(s, i), k), w)
    ensures On(At(s.data, k), w) && SameRights(At(s.data, k), At(Between(s, i), k))
  {
    BetweenInv(s, tx, i);
    assert Shaped(Between(s, i), k);
    BetweenAgrees(s, tx, i);
    if Opening(s, i).Some? {
      OpeningFine(s, tx, i);
      EditAddsNothing(s.data, Opening(s, i).value, w, k);
    }
  }

  /** Whatever is on a wallet after a step was on it, or was put there by its Owner or Admin. */
  lemma NothingAppears(s: State, tx: Tx, i: Instr, t: State, w: Address, k: Address)
    requires Step(s, tx, i, t) && Inv(s.data) && IsWallet(s, w)
    requires !ActsAs(s, tx, i, w, OWNER) && !ActsAs(s, tx, i, w, ADMIN)
    requires On(At(t.data, k), w)
    ensures On(At(s.data, k), w) && SameRights(At(s.data, k), At(t.data, k))
  {
    if Closing(s, tx, i).Some? {
      ClosingFine(s, tx, i);
      if AddsTo(Closing(s, tx, i).value, w) {
        ActorNeeded(s, tx, i, w);
      }
      EditAddsNothing(Between(s, i), Closing(s, tx, i).value, w, k);
    }
    NothingBetween(s, tx, i, w, k);
    SameRightsTrans(At(s.data, k), At(Between(s, i), k), At(t.data, k));
  }

  /** Adding to a wallet that exists takes its Owner or Admin. */
  lemma ActorNeeded(s: State, tx: Tx, i: Instr, w: Address)
    requires Enabled(s, tx, i) && IsWallet(s, w) && Closing(s, tx, i).Some? && AddsTo(Closing(s, tx, i).value, w)
    ensures ActsAs(s, tx, i, w, OWNER) || ActsAs(s, tx, i, w, ADMIN)
  {
    match i {
      case CreateWallet(_, _) =>
      case AddAuthority(_, _, _, _, _) =>
      case TransferOwnership(_, _, _, _) =>
      case CreateSession(_, _, _, _, _) =>
      case Authorize(_, _, _, _, _) =>
      case _ =>
    }
  }

  /** Over a stretch in which neither Owner nor Admin authenticates, nothing appears on the wallet. */
  lemma {:induction false} ManagersDecideRecords(r: Run, w: Address, m: nat, n: nat, k: Address)
    requires IsRun(r) && Initial(r.states[0]) && m <= n < |r.states| && IsWallet(r.states[m], w)
    requires forall j :: m <= j < n ==> !ActsAt(r, j, w, OWNER)
    requires forall j :: m <= j < n ==> !ActsAt(r, j, w, ADMIN)
    requires On(At(r.states[n].data, k), w)
    ensures On(At(r.states[m].data, k), w) && SameRights(At(r.states[m].data, k), At(r.states[n].data, k))
    decreases n
  {
    if m < n {
      InvReached(r, n - 1);
      OwnersDecideRanks(r, w, m, n - 1);
      assert StepAt(r, n - 1) && !ActsAt(r, n - 1, w, OWNER) && !ActsAt(r, n - 1, w, ADMIN);
      NothingAppears(r.states[n - 1], r.txs[n - 1], r.instrs[n - 1], r.states[n], w, k);
      ManagersDecideRecords(r, w, m, n - 1, k);
      SameRightsTrans(At(r.states[m].data, k), At(r.states[n - 1].data, k), At(r.states[n].data, k));
    }
  }
}
