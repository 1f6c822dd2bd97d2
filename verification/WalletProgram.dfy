/**
 The instructions that change who controls a wallet (`program/src/processor`): when each is
 accepted, which records it edits, which lamports it moves, and the runs they make up.

 A transaction's passkey assertions appear as what they are bound to, which module `Passkey`
 proves of the bytes; policy enforcement inside Execute is module `Execute`.
 */
module WalletProgram {
  import opened Bytes
  import opened Chain
  import opened Registry
  import opened Limits
  import opened PolicyEngine
  import opened Narrowing
  import opened PolicyValidation
  import Sums

  const MAX_SESSION_SLOTS: nat := 6_480_000
  const MIN_EXPIRY_SLOTS: nat := 10
  const MAX_EXPIRY_SLOTS: nat := 9_000

  const WALLET_SPACE: nat := 8
  const SESSION_SPACE: nat := 80
  const DEFERRED_SPACE: nat := 176

  /** `can_add`. */
  predicate CanAdd(actor: byte, rank: byte) {
    rank <= DELEGATE && (actor == OWNER || (actor == ADMIN && rank == DELEGATE))
  }

  /** `can_remove`. */
  predicate CanRemove(actor: byte, target: byte, ownerCount: nat) {
    if actor == OWNER && target == OWNER then ownerCount > 1
    else (actor == OWNER && target <= DELEGATE) || (actor == ADMIN && target == DELEGATE)
  }

  /** What an instruction asks an authority for: its discriminator and the payload it has signed. */
  datatype Order =
    | ToAdd(kind: Kind, role: byte, policy: seq<byte>)
    | ToRemove(target: Address, refund: Address)
    | ToTransfer(kind: Kind, refund: Address)
    | ToOpen(key: Key, expiresAt: u64, policy: seq<byte>)
    | ToRevoke(session: Address, refund: Address)
    | ToAuthorize(instructionsHash: Key, accountsHash: Key, expiryOffset: nat)
    | ToExecute

  /** A verified passkey assertion: whose, through which payer, for which wallet, counter and order. */
  datatype Assertion = Assertion(passkey: seq<byte>, payer: Address, wallet: Address, counter: nat, order: Order)

  /** The transaction around an instruction. `rent` is the minimum balance for a size. */
  datatype Tx = Tx(payer: Address, signers: set<Address>, topLevel: bool, assertions: set<Assertion>, rent: nat -> nat)

  /**
   The instructions. `after` is the chain as the inner calls, or everyone else, left it. Execute
   carries what the engine measured and the action buffer it left. MigrateWallet is whatever a
   v1 vault's signature allows.
   */
  datatype Instr =
    | CreateWallet(seed: Key, kind: Kind)
    | AddAuthority(wallet: Address, admin: Address, kind: Kind, role: byte, policy: seq<byte>)
    | RemoveAuthority(wallet: Address, admin: Address, target: Address, refund: Address)
    | TransferOwnership(wallet: Address, current: Address, kind: Kind, refund: Address)
    | CreateSession(wallet: Address, authorizer: Address, key: Key, expiresAt: u64, policy: seq<byte>)
    | RevokeSession(wallet: Address, admin: Address, session: Address, refund: Address)
    | CloseExpiredSession(session: Address, refund: Address)
    | Authorize(wallet: Address, authority: Address, instructionsHash: Key, accountsHash: Key, expiryOffset: nat)
    | ExecuteDeferred(wallet: Address, deferred: Address, refund: Address, instructionsHash: Key, accountsHash: Key,
        after: State)
    | ReclaimDeferred(deferred: Address, refund: Address)
    | Execute(wallet: Address, actor: Address, policy: seq<byte>, spend: Spend, after: State)
    | MigrateWallet(vault: Address, after: State)
    | Outside(after: State)
    | Purge(account: Address)

  // ---------------------------------------------------------------------------
  // Checks the processors share
  // ---------------------------------------------------------------------------

  /** `is_all_zero`. */
  predicate AllZero(s: seq<byte>) {
    s == [] || (s[0] == 0 && AllZero(s[1..]))
  }

  /** The key material is one a holder could ever use. */
  predicate Usable(kind: Kind) {
    match kind
    case Ed25519(pubkey) => !AllZero(pubkey)
    case Secp256r1(credential, passkey, _) => !AllZero(credential) && |passkey| == 33 && !AllZero(passkey)
  }

  /** The fixed part of an authority account (`authority_fixed_len`). */
  function AuthoritySpace(kind: Kind): nat {
    if kind.Ed25519? then 80 else 145
  }

  predicate PayerSigns(tx: Tx) {
    tx.payer in tx.signers
  }

  /** Only keys nobody derived can sign a transaction. */
  ghost predicate RuntimeTx(tx: Tx) {
    forall a :: a in tx.signers ==> a.User?
  }

  predicate IsWallet(s: State, w: Address) {
    At(s.data, w).Wallet?
  }

  /** `a` is an authority of `w`, and this transaction carries its signature, or its assertion for `o`. */
  predicate Authenticates(s: State, tx: Tx, o: Order, w: Address, a: Address) {
    && At(s.data, a).Authority? && At(s.data, a).wallet == w
    && tx.topLevel
    && match At(s.data, a).kind
       case Ed25519(pubkey) => User(pubkey) in tx.signers
       case Secp256r1(_, passkey, _) =>
         && At(s.data, a).counter < U32_MAX
         && Assertion(passkey, tx.payer, w, At(s.data, a).counter + 1, o) in tx.assertions
  }

  function MinimumBalance(tx: Tx, space: nat): nat {
    tx.rent(space)
  }

  function Short(l: map<Address, nat>, target: Address, need: nat): nat {
    if Lam(l, target) < need then need - Lam(l, target) else 0
  }

  /** `initialize_pda_account`: nothing there yet, and the payer can make up the rent. */
  predicate CanCreate(s: State, tx: Tx, target: Address, need: nat) {
    && At(s.data, target).Empty? && tx.payer != target
    && var n := Short(s.lamports, target, need);
       n == 0 || (At(s.data, tx.payer).Empty? && n <= Lam(s.lamports, tx.payer))
  }

  function Funded(s: State, tx: Tx, target: Address, need: nat): map<Address, nat> {
    Move(s.lamports, tx.payer, target, Short(s.lamports, target, need))
  }

  /** The close at the end of a life: the refund goes elsewhere and fits in 64 bits. */
  predicate CanClose(l: map<Address, nat>, target: Address, refund: Address) {
    target != refund && Lam(l, refund) + Lam(l, target) <= U64_MAX
  }

  function Drained(l: map<Address, nat>, target: Address, refund: Address): map<Address, nat> {
    Move(l, target, refund, Lam(l, target))
  }

  ghost predicate ValidPolicy(policy: seq<byte>) {
    |policy| <= MAX_POLICY_BUFFER_SIZE && Runnable(policy) && Grantable(Meaning(policy))
  }

  // ---------------------------------------------------------------------------
  // When an instruction is accepted
  // ---------------------------------------------------------------------------

  ghost predicate CanCreateWallet(s: State, tx: Tx, seed: Key, kind: Kind) {
    var w := WalletKey(seed);
    var a := AuthorityAt(w, kind);
    && Usable(kind) && PayerSigns(tx)
    && CanCreate(s, tx, w, MinimumBalance(tx, WALLET_SPACE))
    && CanCreate(s.(lamports := Funded(s, tx, w, MinimumBalance(tx, WALLET_SPACE))), tx, a,
        MinimumBalance(tx, AuthoritySpace(kind)))
  }

  /** Who may grant what: the checks before anything is created. */
  ghost predicate MayAdd(s: State, tx: Tx, w: Address, admin: Address, kind: Kind, role: byte, policy: seq<byte>) {
    && Usable(kind) && ValidPolicy(policy) && PayerSigns(tx) && IsWallet(s, w)
    && Authenticates(s, tx, ToAdd(kind, role, policy), w, admin)
    && CanAdd(At(s.data, admin).role, role)
    && (role == DELEGATE <==> |policy| > 0)
    && |At(s.data, admin).policy| == 0
  }

  ghost predicate CanAddAuthority(
      s: State, tx: Tx, w: Address, admin: Address, kind: Kind, role: byte, policy: seq<byte>) {
    && MayAdd(s, tx, w, admin, kind, role, policy)
    && CanCreate(s, tx, AuthorityAt(w, kind), MinimumBalance(tx, AuthoritySpace(kind) + |policy|))
    && (role == OWNER ==> At(s.data, w).ownerCount < U32_MAX)
  }

  /** Who may remove whom: the checks before anything is closed. */
  predicate MayRemove(s: State, tx: Tx, w: Address, admin: Address, target: Address, refund: Address) {
    && PayerSigns(tx) && IsWallet(s, w) && Authenticates(s, tx, ToRemove(target, refund), w, admin)
    && At(s.data, target).Authority? && At(s.data, target).wallet == w && admin != target
    && CanRemove(At(s.data, admin).role, At(s.data, target).role, At(s.data, w).ownerCount)
  }

  predicate CanRemoveAuthority(s: State, tx: Tx, w: Address, admin: Address, target: Address, refund: Address) {
    MayRemove(s, tx, w, admin, target, refund) && CanClose(s.lamports, target, refund)
  }

  /** An unbounded Owner hands over to usable key material. */
  predicate MayTransfer(s: State, tx: Tx, w: Address, current: Address, kind: Kind, refund: Address) {
    && Usable(kind) && PayerSigns(tx) && IsWallet(s, w) && Authenticates(s, tx, ToTransfer(kind, refund), w, current)
    && At(s.data, current).role == OWNER && |At(s.data, current).policy| == 0
  }

  predicate CanTransferOwnership(s: State, tx: Tx, w: Address, current: Address, kind: Kind, refund: Address) {
    && MayTransfer(s, tx, w, current, kind, refund)
    && var a := AuthorityAt(w, kind);
    && CanCreate(s, tx, a, MinimumBalance(tx, AuthoritySpace(kind)))
    && CanClose(Funded(s, tx, a, MinimumBalance(tx, AuthoritySpace(kind))), current, refund)
  }

  /** Who may open a session, and for how long. */
  ghost predicate MayOpen(
      s: State, tx: Tx, w: Address, authorizer: Address, key: Key, expiresAt: u64, policy: seq<byte>) {
    && ValidPolicy(policy) && PayerSigns(tx) && IsWallet(s, w)
    && Authenticates(s, tx, ToOpen(key, expiresAt, policy), w, authorizer)
    && At(s.data, authorizer).role in {OWNER, ADMIN} && |At(s.data, authorizer).policy| == 0
    && s.slot < expiresAt <= SatAdd(s.slot, MAX_SESSION_SLOTS)
  }

  ghost predicate CanCreateSession(
      s: State, tx: Tx, w: Address, authorizer: Address, key: Key, expiresAt: u64, policy: seq<byte>) {
    && MayOpen(s, tx, w, authorizer, key, expiresAt, policy)
    && CanCreate(s, tx, SessionKey(w, key), MinimumBalance(tx, SESSION_SPACE + |policy|))
  }

  predicate CanRevokeSession(s: State, tx: Tx, w: Address, admin: Address, session: Address, refund: Address) {
    && PayerSigns(tx) && IsWallet(s, w) && Authenticates(s, tx, ToRevoke(session, refund), w, admin)
    && At(s.data, admin).role <= ADMIN
    && At(s.data, session).Session? && At(s.data, session).wallet == w
    && CanClose(s.lamports, session, refund)
  }

  predicate CanCloseExpired(s: State, tx: Tx, session: Address, refund: Address) {
    && PayerSigns(tx)
    && (At(s.data, session).Session? || At(s.data, session).LegacySession?)
    && s.slot > At(s.data, session).expiresAt
    && CanClose(s.lamports, session, refund)
  }

  /** The address the counter just committed derives. */
  function DeferredAddress(s: State, w: Address, authority: Address): Address {
    DeferredKey(w, authority, NextCounter(s, authority))
  }

  function NextCounter(s: State, authority: Address): nat {
    if At(s.data, authority).Authority? then At(s.data, authority).counter + 1 else 1
  }

  /** Who may authorize, and for how long. */
  predicate MayAuthorize(s: State, tx: Tx, w: Address, authority: Address, ih: Key, ah: Key, expiryOffset: nat) {
    && PayerSigns(tx) && IsWallet(s, w)
    && MIN_EXPIRY_SLOTS <= expiryOffset <= MAX_EXPIRY_SLOTS && s.slot + expiryOffset <= U64_MAX
    && Authenticates(s, tx, ToAuthorize(ih, ah, expiryOffset), w, authority)
    && At(s.data, authority).kind.Secp256r1? && At(s.data, authority).role <= ADMIN
    && |At(s.data, authority).policy| == 0
  }

  predicate CanAuthorize(s: State, tx: Tx, w: Address, authority: Address, ih: Key, ah: Key, expiryOffset: nat) {
    && MayAuthorize(s, tx, w, authority, ih, ah, expiryOffset)
    && CanCreate(s, tx, DeferredAddress(s, w, authority), MinimumBalance(tx, DEFERRED_SPACE))
  }

  /** What ExecuteDeferred checks before any inner call. */
  predicate CanStartDeferred(
      s: State, tx: Tx, w: Address, deferred: Address, refund: Address, instructionsHash: Key, accountsHash: Key) {
    && tx.topLevel && PayerSigns(tx) && IsWallet(s, w)
    && var d := At(s.data, deferred);
    && d.Deferred? && d.wallet == w && d.payer == refund && s.slot <= d.expiresAt
    && d.instructionsHash == instructionsHash && d.accountsHash == accountsHash
  }

  predicate CanReclaim(s: State, tx: Tx, deferred: Address, refund: Address) {
    && PayerSigns(tx)
    && var d := At(s.data, deferred);
    && (d.Deferred? || d.LegacyDeferred?) && d.payer == tx.payer && refund == d.payer && s.slot > d.expiresAt
    && CanClose(s.lamports, deferred, refund)
  }

  /** An unexpired session of `w` whose key signs. */
  predicate SessionActs(s: State, tx: Tx, w: Address, a: Address) {
    && At(s.data, a).Session? && At(s.data, a).wallet == w
    && tx.topLevel && s.slot <= At(s.data, a).expiresAt && User(At(s.data, a).key) in tx.signers
  }

  predicate CanExecute(s: State, tx: Tx, w: Address, actor: Address) {
    PayerSigns(tx) && IsWallet(s, w) && (Authenticates(s, tx, ToExecute, w, actor) || SessionActs(s, tx, w, actor))
  }

  /** What an address lost between two states of the chain. */
  function Fall(before: map<Address, nat>, after: map<Address, nat>, a: Address): nat {
    if Lam(before, a) > Lam(after, a) then Lam(before, a) - Lam(after, a) else 0
  }

  /** Inner calls carry the outer signatures and the vault's. */
  function InnerSigners(tx: Tx, w: Address): set<Address> {
    tx.signers + {VaultKey(w)}
  }

  ghost predicate Enabled(s: State, tx: Tx, i: Instr) {
    match i
    case CreateWallet(seed, kind) => CanCreateWallet(s, tx, seed, kind)
    case AddAuthority(w, admin, kind, role, policy) => CanAddAuthority(s, tx, w, admin, kind, role, policy)
    case RemoveAuthority(w, admin, target, refund) => CanRemoveAuthority(s, tx, w, admin, target, refund)
    case TransferOwnership(w, current, kind, refund) => CanTransferOwnership(s, tx, w, current, kind, refund)
    case CreateSession(w, authorizer, key, expiresAt, policy) =>
      CanCreateSession(s, tx, w, authorizer, key, expiresAt, policy)
    case RevokeSession(w, admin, session, refund) => CanRevokeSession(s, tx, w, admin, session, refund)
    case CloseExpiredSession(session, refund) => CanCloseExpired(s, tx, session, refund)
    case Authorize(w, authority, ih, ah, offset) => CanAuthorize(s, tx, w, authority, ih, ah, offset)
    case ExecuteDeferred(w, deferred, refund, ih, ah, after) =>
      && CanStartDeferred(s, tx, w, deferred, refund, ih, ah)
      && Effects(s.(data := Opened(s, i)), after, InnerSigners(tx, w))
      && CanClose(after.lamports, deferred, refund)
    case ReclaimDeferred(deferred, refund) => CanReclaim(s, tx, deferred, refund)
    case Execute(w, actor, policy, spend, after) =>
      && CanExecute(s, tx, w, actor)
      && |policy| == |At(s.data, actor).policy| && Runnable(policy) && Settled(At(s.data, actor).policy, policy, spend)
      && Effects(s.(data := Opened(s, i)), after, InnerSigners(tx, w))
      && (|policy| > 0 ==> spend.slot == s.slot && spend.sol as int == Fall(s.lamports, after.lamports, VaultKey(w)))
    case MigrateWallet(vault, after) =>
      PayerSigns(tx) && vault.LegacyKey? && Effects(s, after, tx.signers + {vault})
    case Outside(after) => after.slot >= s.slot && Effects(s, after.(slot := s.slot), tx.signers)
    case Purge(account) => At(s.data, account).Zeroed? && Lam(s.lamports, account) == 0
  }

  // ---------------------------------------------------------------------------
  // The records an instruction edits
  // ---------------------------------------------------------------------------

  /** The authority an instruction is authenticated by, when it is. */
  function Actor(i: Instr): Option<Address> {
    match i
    case AddAuthority(_, admin, _, _, _) => Some(admin)
    case RemoveAuthority(_, admin, _, _) => Some(admin)
    case TransferOwnership(_, current, _, _) => Some(current)
    case CreateSession(_, authorizer, _, _, _) => Some(authorizer)
    case RevokeSession(_, admin, _, _) => Some(admin)
    case Authorize(_, authority, _, _, _) => Some(authority)
    case Execute(_, actor, _, _, _) => Some(actor)
    case _ => None
  }

  /** What that authority is asked for. */
  function OrderOf(i: Instr): Order
    requires Actor(i).Some?
  {
    match i
    case AddAuthority(_, _, kind, role, policy) => ToAdd(kind, role, policy)
    case RemoveAuthority(_, _, target, refund) => ToRemove(target, refund)
    case TransferOwnership(_, _, kind, refund) => ToTransfer(kind, refund)
    case CreateSession(_, _, key, expiresAt, policy) => ToOpen(key, expiresAt, policy)
    case RevokeSession(_, _, session, refund) => ToRevoke(session, refund)
    case Authorize(_, _, ih, ah, offset) => ToAuthorize(ih, ah, offset)
    case _ => ToExecute
  }

  ghost function Made(d: Records, e: Option<Edit>): Records {
    if e.Some? then Do(d, e.value) else d
  }

  /** First the odometer moves; a deferred authorization is consumed instead. */
  function Opening(s: State, i: Instr): Option<Edit> {
    if i.ExecuteDeferred? then Some(Erase(i.deferred))
    else if i.TransferOwnership? || Actor(i).None? || !At(s.data, Actor(i).value).Authority? then None
    else Some(Tick(Actor(i).value))
  }

  ghost function Opened(s: State, i: Instr): Records {
    Made(s.data, Opening(s, i))
  }

  /** Then, with inner calls in between where there are any, the instruction's own edit. */
  function Closing(s: State, tx: Tx, i: Instr): Option<Edit> {
    match i
    case CreateWallet(seed, kind) => Some(Birth(WalletKey(seed), kind))
    case AddAuthority(w, _, kind, role, policy) => Some(Grant(w, kind, role, policy))
    case RemoveAuthority(w, _, target, _) => Some(Drop(w, target))
    case TransferOwnership(w, current, kind, _) => Some(Swap(w, current, kind))
    case CreateSession(w, _, key, expiresAt, policy) => Some(Open(w, key, expiresAt, policy))
    case RevokeSession(_, _, session, _) => Some(Erase(session))
    case CloseExpiredSession(session, _) => Some(Erase(session))
    case Authorize(w, authority, ih, ah, offset) =>
      Some(Promise(w, authority, NextCounter(s, authority), tx.payer, ih, ah, Min(s.slot + offset, U64_MAX)))
    case ExecuteDeferred(_, _, _, _, _, _) => None
    case ReclaimDeferred(deferred, _) => Some(Erase(deferred))
    case Execute(_, actor, policy, spend, _) => Some(Settle(actor, policy, spend))
    case MigrateWallet(_, _) => None
    case Outside(_) => None
    case Purge(account) => Some(Reap(account))
  }

  predicate HasAfter(i: Instr) {
    i.ExecuteDeferred? || i.Execute? || i.MigrateWallet? || i.Outside?
  }

  /** The records when the closing edit is made. */
  ghost function Between(s: State, i: Instr): Records {
    if HasAfter(i) then i.after.data else Opened(s, i)
  }

  function LamportsAfter(s: State, tx: Tx, i: Instr): map<Address, nat> {
    match i
    case CreateWallet(seed, kind) =>
      var w := WalletKey(seed);
      var s1 := s.(lamports := Funded(s, tx, w, MinimumBalance(tx, WALLET_SPACE)));
      Funded(s1, tx, AuthorityAt(w, kind), MinimumBalance(tx, AuthoritySpace(kind)))
    case AddAuthority(w, _, kind, _, policy) =>
      Funded(s, tx, AuthorityAt(w, kind), MinimumBalance(tx, AuthoritySpace(kind) + |policy|))
    case RemoveAuthority(_, _, target, refund) => Drained(s.lamports, target, refund)
    case TransferOwnership(w, current, kind, refund) =>
      Drained(Funded(s, tx, AuthorityAt(w, kind), MinimumBalance(tx, AuthoritySpace(kind))), current, refund)
    case CreateSession(w, _, key, _, policy) =>
      Funded(s, tx, SessionKey(w, key), MinimumBalance(tx, SESSION_SPACE + |policy|))
    case RevokeSession(_, _, session, refund) => Drained(s.lamports, session, refund)
    case CloseExpiredSession(session, refund) => Drained(s.lamports, session, refund)
    case Authorize(w, authority, _, _, _) =>
      Funded(s, tx, DeferredAddress(s, w, authority), MinimumBalance(tx, DEFERRED_SPACE))
    case ExecuteDeferred(_, deferred, refund, _, _, after) => Drained(after.lamports, deferred, refund)
    case ReclaimDeferred(deferred, refund) => Drained(s.lamports, deferred, refund)
    case Execute(_, _, _, _, after) => after.lamports
    case MigrateWallet(_, after) => after.lamports
    case Outside(after) => after.lamports
    case Purge(_) => s.lamports
  }

  ghost predicate Step(s: State, tx: Tx, i: Instr, t: State) {
    && RuntimeTx(tx) && Enabled(s, tx, i)
    && t.data == Made(Between(s, i), Closing(s, tx, i))
    && t.lamports == LamportsAfter(s, tx, i)
    && t.slot == if i.Outside? then i.after.slot else s.slot
  }

  // ---------------------------------------------------------------------------
  // Runs
  // ---------------------------------------------------------------------------

  datatype Run = Run(states: seq<State>, txs: seq<Tx>, instrs: seq<Instr>)

  predicate Lengths(r: Run) {
    |r.states| == |r.instrs| + 1 && |r.txs| == |r.instrs|
  }

  ghost predicate StepAt(r: Run, n: nat)
    requires Lengths(r) && n < |r.instrs|
  {
    Step(r.states[n], r.txs[n], r.instrs[n], r.states[n + 1])
  }

  ghost predicate IsRun(r: Run) {
    Lengths(r) && forall n :: 0 <= n < |r.instrs| ==> StepAt(r, n)
  }

  /** Before the program's current version first ran: no derived address holds anything. */
  ghost predicate Initial(s: State) {
    forall k :: if Derived(k) then At(s.data, k).Empty? else External(At(s.data, k))
  }

  // ---------------------------------------------------------------------------
  // Every step keeps the invariant
  // ---------------------------------------------------------------------------

  /** The checks make the opening edit fine. */
  lemma OpeningFine(s: State, tx: Tx, i: Instr)
    requires Enabled(s, tx, i) && Opening(s, i).Some?
    ensures Fine(s.data, Opening(s, i).value)
  {
  }

  lemma OpenedKeeps(s: State, tx: Tx, i: Instr)
    requires Enabled(s, tx, i) && Inv(s.data)
    ensures Inv(Opened(s, i))
  {
    if Opening(s, i).Some? {
      OpeningFine(s, tx, i);
      InvDone(s.data, Opening(s, i).value);
    }
  }

  /** Inner calls, and everyone else, leave derived records alone. */
  lemma CallsAgree(s: State, tx: Tx, i: Instr)
    requires Enabled(s, tx, i) && HasAfter(i)
    ensures Agree(Opened(s, i), i.after.data)
  {
    match i {
      case ExecuteDeferred(w, _, _, _, _, after) => EffectsAgree(s.(data := Opened(s, i)), after, InnerSigners(tx, w));
      case Execute(w, _, _, _, after) => EffectsAgree(s.(data := Opened(s, i)), after, InnerSigners(tx, w));
      case MigrateWallet(vault, after) => EffectsAgree(s, after, tx.signers + {vault});
      case Outside(after) => EffectsAgree(s, after.(slot := s.slot), tx.signers);
    }
  }

  lemma BetweenAgrees(s: State, tx: Tx, i: Instr)
    requires Enabled(s, tx, i) && Inv(s.data)
    ensures Agree(Opened(s, i), Between(s, i))
  {
    if HasAfter(i) {
      CallsAgree(s, tx, i);
    } else {
      OpenedKeeps(s, tx, i);
      AgreeRefl(Opened(s, i));
    }
  }

  lemma BetweenInv(s: State, tx: Tx, i: Instr)
    requires Enabled(s, tx, i) && Inv(s.data)
    ensures Inv(Between(s, i))
  {
    OpenedKeeps(s, tx, i);
    BetweenAgrees(s, tx, i);
    InvAgrees(Opened(s, i), Between(s, i));
  }

  /** A record the closing edit looks at, unless the odometer on it moved, is what it was. */
  lemma Untouched(s: State, tx: Tx, i: Instr, k: Address)
    requires Enabled(s, tx, i) && Inv(s.data) && Derived(k)
    ensures At(Between(s, i), k) ==
            if Opening(s, i) == Some(Tick(k)) then Ticked(At(s.data, k))
            else if Opening(s, i) == Some(Erase(k)) then Zeroed
            else At(s.data, k)
  {
    BetweenAgrees(s, tx, i);
    if Opening(s, i).Some? {
      OpeningFine(s, tx, i);
    }
  }

  lemma AddFine(s: State, tx: Tx, i: Instr)
    requires i.AddAuthority? && RuntimeTx(tx) && Enabled(s, tx, i) && Inv(s.data)
    ensures Fine(Between(s, i), Closing(s, tx, i).value)
  {
    assert Shaped(s.data, i.wallet);
    Untouched(s, tx, i, i.wallet);
    Untouched(s, tx, i, AuthorityAt(i.wallet, i.kind));
  }

  lemma RemoveFine(s: State, tx: Tx, i: Instr)
    requires i.RemoveAuthority? && RuntimeTx(tx) && Enabled(s, tx, i) && Inv(s.data)
    ensures Fine(Between(s, i), Closing(s, tx, i).value)
  {
    assert Shaped(s.data, i.wallet) && Shaped(s.data, i.target);
    Untouched(s, tx, i, i.wallet);
    Untouched(s, tx, i, i.target);
  }

  lemma SessionFine(s: State, tx: Tx, i: Instr)
    requires (i.CreateSession? || i.RevokeSession?) && RuntimeTx(tx) && Enabled(s, tx, i) && Inv(s.data)
    ensures Fine(Between(s, i), Closing(s, tx, i).value)
  {
    assert Shaped(s.data, i.wallet);
    Untouched(s, tx, i, i.wallet);
    if i.CreateSession? {
      Untouched(s, tx, i, SessionKey(i.wallet, i.key));
    } else {
      assert Shaped(s.data, i.session);
      Untouched(s, tx, i, i.session);
    }
  }

  lemma AuthorizeFine(s: State, tx: Tx, i: Instr)
    requires i.Authorize? && RuntimeTx(tx) && Enabled(s, tx, i) && Inv(s.data)
    ensures Fine(Between(s, i), Closing(s, tx, i).value)
  {
    assert Shaped(s.data, i.wallet);
    Untouched(s, tx, i, i.wallet);
    Untouched(s, tx, i, DeferredAddress(s, i.wallet, i.authority));
  }

  lemma ExecuteFine(s: State, tx: Tx, i: Instr)
    requires i.Execute? && RuntimeTx(tx) && Enabled(s, tx, i) && Inv(s.data)
    ensures Fine(Between(s, i), Closing(s, tx, i).value)
  {
    assert Shaped(s.data, i.actor);
    Untouched(s, tx, i, i.actor);
  }

  /** The checks make the closing edit fine. */
  lemma ClosingFine(s: State, tx: Tx, i: Instr)
    requires RuntimeTx(tx) && Enabled(s, tx, i) && Inv(s.data) && Closing(s, tx, i).Some?
    ensures Fine(Between(s, i), Closing(s, tx, i).value)
  {
    match i {
      case AddAuthority(_, _, _, _, _) => AddFine(s, tx, i);
      case RemoveAuthority(_, _, _, _) => RemoveFine(s, tx, i);
      case CreateSession(_, _, _, _, _) => SessionFine(s, tx, i);
      case RevokeSession(_, _, _, _) => SessionFine(s, tx, i);
      case Authorize(_, _, _, _, _) => AuthorizeFine(s, tx, i);
      case Execute(_, _, _, _, _) => ExecuteFine(s, tx, i);
      case _ =>
    }
  }

  lemma InvStep(s: State, tx: Tx, i: Instr, t: State)
    requires Step(s, tx, i, t) && Inv(s.data)
    ensures Inv(t.data)
  {
    BetweenInv(s, tx, i);
    if Closing(s, tx, i).Some? {
      ClosingFine(s, tx, i);
      InvDone(Between(s, i), Closing(s, tx, i).value);
    }
  }

  lemma InitialInv(s: State)
    requires Initial(s)
    ensures Inv(s.data)
  {
    forall k
      ensures Shaped(s.data, k) && Counted(s.data, k)
    {
    }
  }

  /** Every reachable state. */
  lemma {:induction false} InvReached(r: Run, n: nat)
    requires IsRun(r) && Initial(r.states[0]) && n < |r.states|
    ensures Inv(r.states[n].data)
  {
    if n == 0 {
      InitialInv(r.states[0]);
    } else {
      InvReached(r, n - 1);
      assert StepAt(r, n - 1);
      InvStep(r.states[n - 1], r.txs[n - 1], r.instrs[n - 1], r.states[n]);
    }
  }
}
