/**
 The processors as programs over the accounts, written in the order the source checks and
 writes. Each is accepted exactly when `WalletProgram.Enabled` says so, makes exactly that
 step, keeps the registry's invariant, and leaves everything as it was when it refuses.
 */
module Processors {
  import opened Bytes
  import opened Chain
  import opened Registry
  import opened WalletProgram
  import PolicyValidation
  import C = Compact

  class Program {
    var lamports: map<Address, nat>
    var data: map<Address, Content>
    var slot: u64

    constructor (lamports: map<Address, nat>, data: map<Address, Content>, slot: u64)
      ensures Now() == State(lamports, data, slot)
    {
      this.lamports, this.data, this.slot := lamports, data, slot;
    }

    function Now(): State
      reads this
    {
      State(lamports, data, slot)
    }

    /** `initialize_pda_account`: top up to rent exemption, then allocate and assign. */
    method InitializePda(tx: Tx, target: Address, space: nat, content: Content) returns (ok: bool)
      modifies this`lamports, this`data
      ensures ok <==> CanCreate(old(Now()), tx, target, MinimumBalance(tx, space))
      ensures ok ==>
                lamports == Funded(old(Now()), tx, target, MinimumBalance(tx, space)) &&
                    data == old(data)[target := content]
      ensures !ok ==> lamports == old(lamports) && data == old(data)
    {
      if tx.payer == target || At(data, target) != Empty {
        return false;
      }
      var need := MinimumBalance(tx, space);
      var balance := Lam(lamports, target);
      if balance < need {
        var amount := need - balance;
        if At(data, tx.payer) != Empty || Lam(lamports, tx.payer) < amount {
          return false;
        }
        lamports := lamports[tx.payer := Lam(lamports, tx.payer) - amount];
        lamports := lamports[target := balance + amount];
      } else {
        lamports := lamports[tx.payer := Lam(lamports, tx.payer)][target := balance];
      }
      data := data[target := content];
      ok := true;
    }

    /** The closers' tail: the refund is credited, the balance drops to zero, the data is zeroed. */
    method CloseAccount(target: Address, refund: Address) returns (ok: bool)
      modifies this`lamports, this`data
      ensures ok <==> CanClose(old(lamports), target, refund)
      ensures ok ==> lamports == Drained(old(lamports), target, refund) && data == old(data)[target := Zeroed]
      ensures !ok ==> lamports == old(lamports) && data == old(data)
    {
      if target == refund || Lam(lamports, refund) + Lam(lamports, target) > U64_MAX {
        return false;
      }
      var balance := Lam(lamports, target);
      lamports := lamports[refund := Lam(lamports, refund) + balance];
      lamports := lamports[target := 0];
      assert lamports == Drained(old(lamports), target, refund);
      data := data[target := Zeroed];
      ok := true;
    }

    /** Either authenticator; a passkey's odometer moves. */
    method Authenticate(tx: Tx, o: Order, w: Address, authority: Address) returns (ok: bool)
      modifies this`data
      ensures ok <==> Authenticates(old(Now()), tx, o, w, authority)
      ensures ok ==> data == old(data)[authority := Ticked(At(old(data), authority))]
      ensures !ok ==> data == old(data)
    {
      var a := At(data, authority);
      if !a.Authority? || a.wallet != w || !tx.topLevel {
        return false;
      }
      match a.kind {
        case Ed25519(pubkey) =>
          ok := User(pubkey) in tx.signers;
          if ok {
            data := data[authority := a];
          }
        case Secp256r1(_, passkey, _) =>
          ok := a.counter < U32_MAX && Assertion(passkey, tx.payer, w, a.counter + 1, o) in tx.assertions;
          if ok {
            data := data[authority := a.(counter := a.counter + 1)];
          }
      }
    }

    /** The writes of CreateWallet: the wallet, then its first Owner. */
    method WriteWallet(tx: Tx, w: Address, kind: Kind) returns (ok: bool)
      modifies this`lamports, this`data
      ensures ok <==>
              && At(old(data), AuthorityAt(w, kind)).Empty?
              && CanCreate(old(Now()), tx, w, MinimumBalance(tx, WALLET_SPACE))
              && CanCreate(WithWallet(old(Now()), tx, w), tx, AuthorityAt(w, kind),
                  MinimumBalance(tx, AuthoritySpace(kind)))
      ensures ok ==>
                && data == old(data)[w := Wallet(1)][AuthorityAt(w, kind) := Born(w, kind, OWNER, [])]
                && lamports == Funded(WithWallet(old(Now()), tx, w), tx, AuthorityAt(w, kind),
                    MinimumBalance(tx, AuthoritySpace(kind)))
      ensures !ok ==> lamports == old(lamports) && data == old(data)
    {
      var (l, d) := (lamports, data);
      ok := At(data, AuthorityAt(w, kind)).Empty?;
      if ok {
        ok := InitializePda(tx, w, WALLET_SPACE, Wallet(1));
      }
      if ok {
        ok := InitializePda(tx, AuthorityAt(w, kind), AuthoritySpace(kind), Born(w, kind, OWNER, []));
      }
      if !ok {
        lamports, data := l, d;
      }
    }

    /** `wallet/create.rs`. */
    method CreateWallet(tx: Tx, seed: Key, kind: Kind) returns (ok: bool)
      requires Inv(data) && RuntimeTx(tx)
      modifies this
      ensures ok <==> CanCreateWallet(old(Now()), tx, seed, kind)
      ensures ok ==> Step(old(Now()), tx, WalletProgram.CreateWallet(seed, kind), Now()) && Inv(data)
      ensures !ok ==> Now() == old(Now())
    {
      ghost var before := Now();
      CreateParts(before, tx, seed, kind);
      if !Usable(kind) || !PayerSigns(tx) {
        return false;
      }
      ok := WriteWallet(tx, WalletKey(seed), kind);
      if ok {
        CreateStep(before, tx, seed, kind, Now());
      }
    }

    /** `validate_actions_buffer`, under the size cap of the instructions that store a policy. */
    method PolicyOk(policy: seq<byte>) returns (ok: bool)
      ensures ok <==> ValidPolicy(policy)
    {
      if |policy| > MAX_POLICY_BUFFER_SIZE {
        return false;
      }
      var r := PolicyValidation.ValidateActionsBuffer(policy);
      ok := r.Ok?;
    }

    /** The checks of AddAuthority up to the derivation of the new address. */
    method AdmitAdd(tx: Tx, w: Address, admin: Address, kind: Kind, role: byte, policy: seq<byte>) returns (ok: bool)
      modifies this`data
      ensures ok <==> MayAdd(old(Now()), tx, w, admin, kind, role, policy)
      ensures ok ==> data == old(data)[admin := Ticked(At(old(data), admin))]
      ensures !ok ==> data == old(data)
    {
      var d, a := data, At(data, admin);
      ok := PolicyOk(policy);
      ok := ok && Usable(kind) && PayerSigns(tx) && At(data, w).Wallet?;
      if ok {
        ok := Authenticate(tx, ToAdd(kind, role, policy), w, admin);
      }
      if ok && !(CanAdd(a.role, role) && !(role == DELEGATE && |policy| == 0) &&
          !(role != DELEGATE && |policy| > 0) && |a.policy| == 0) {
        data := d;
        ok := false;
      }
    }

    /** The writes of AddAuthority. */
    method WriteAuthority(tx: Tx, w: Address, kind: Kind, role: byte, policy: seq<byte>) returns (ok: bool)
      requires At(data, w).Wallet? && At(data, w).ownerCount <= U32_MAX
      modifies this`lamports, this`data
      ensures ok <==>
              && CanCreate(old(Now()), tx, AuthorityAt(w, kind), MinimumBalance(tx, AuthoritySpace(kind) + |policy|))
                      && (role == OWNER ==> At(old(data), w).ownerCount < U32_MAX)
      ensures ok ==>
                lamports == Funded(old(Now()), tx, AuthorityAt(w, kind),
                    MinimumBalance(tx, AuthoritySpace(kind) + |policy|))
      ensures ok ==> var e := old(data)[AuthorityAt(w, kind) := Born(w, kind, role, policy)];
                     data == if role == OWNER then e[w := Wallet(At(old(data), w).ownerCount + 1)] else e
      ensures !ok ==> lamports == old(lamports) && data == old(data)
    {
      var (l, d) := (lamports, data);
      var n := At(data, w).ownerCount;
      ok := InitializePda(tx, AuthorityAt(w, kind), AuthoritySpace(kind) + |policy|, Born(w, kind, role, policy));
      if ok && role == OWNER {
        if n == U32_MAX {
          lamports, data := l, d;
          return false;
        }
        data := data[w := Wallet(n + 1)];
      }
    }

    /** `process_add_authority`. */
    method AddAuthority(
        tx: Tx, w: Address, admin: Address, kind: Kind, role: byte, policy: seq<byte>) returns (ok: bool)
      requires Inv(data) && RuntimeTx(tx)
      modifies this
      ensures ok <==>
              && MayAdd(old(Now()), tx, w, admin, kind, role, policy)
              && CanCreate(old(Now()), tx, AuthorityAt(w, kind), MinimumBalance(tx, AuthoritySpace(kind) + |policy|))
              && (role == OWNER ==> At(old(data), w).ownerCount < U32_MAX)
      ensures ok ==> Step(old(Now()), tx, WalletProgram.AddAuthority(w, admin, kind, role, policy), Now()) && Inv(data)
      ensures !ok ==> Now() == old(Now())
    {
      ghost var before := Now();
      var d := data;
      ok := AdmitAdd(tx, w, admin, kind, role, policy);
      if !ok {
        return;
      }
      assert Counted(before.data, w);
      TickedCreate(before, tx, admin, AuthorityAt(w, kind), MinimumBalance(tx, AuthoritySpace(kind) + |policy|));
      ok := WriteAuthority(tx, w, kind, role, policy);
      if !ok {
        data := d;
        return;
      }
      AddStep(before, tx, w, admin, kind, role, policy, Now());
    }

    /** The checks of RemoveAuthority. */
    method AdmitRemove(tx: Tx, w: Address, admin: Address, target: Address, refund: Address) returns (ok: bool)
      modifies this`data
      ensures ok <==> MayRemove(old(Now()), tx, w, admin, target, refund)
      ensures ok ==> data == old(data)[admin := Ticked(At(old(data), admin))]
      ensures !ok ==> data == old(data)
    {
      var d, a, t, c := data, At(data, admin), At(data, target), At(data, w);
      ok := PayerSigns(tx) && c.Wallet?;
      if ok {
        ok := Authenticate(tx, ToRemove(target, refund), w, admin);
      }
      if ok && !(t.Authority? && t.wallet == w && admin != target && CanRemove(a.role, t.role, c.ownerCount)) {
        data := d;
        ok := false;
      }
    }

    /** The writes of RemoveAuthority. */
    method WriteRemoval(w: Address, target: Address, refund: Address) returns (ok: bool)
      requires At(data, target).Authority? && At(data, w).Wallet?
      requires (At(data, target).role == OWNER ==> At(data, w).ownerCount > 0)
      modifies this`lamports, this`data
      ensures ok <==> CanClose(old(lamports), target, refund)
      ensures ok ==> lamports == Drained(old(lamports), target, refund)
      ensures ok ==>
                var d := old(data);
                data == (if At(d, target).role == OWNER then d[w := Wallet(At(d, w).ownerCount - 1)]
                    else d)[target := Zeroed]
      ensures !ok ==> lamports == old(lamports) && data == old(data)
    {
      var d := data;
      if At(data, target).role == OWNER {
        data := data[w := Wallet(At(data, w).ownerCount - 1)];
      }
      ok := CloseAccount(target, refund);
      if !ok {
        data := d;
      }
    }

    /** `process_remove_authority`. */
    method RemoveAuthority(tx: Tx, w: Address, admin: Address, target: Address, refund: Address) returns (ok: bool)
      requires Inv(data) && RuntimeTx(tx)
      modifies this
      ensures ok <==> MayRemove(old(Now()), tx, w, admin, target, refund) && CanClose(old(lamports), target, refund)
      ensures ok ==> Step(old(Now()), tx, WalletProgram.RemoveAuthority(w, admin, target, refund), Now()) && Inv(data)
      ensures !ok ==> Now() == old(Now())
    {
      ghost var before := Now();
      var d := data;
      ok := AdmitRemove(tx, w, admin, target, refund);
      if !ok {
        return;
      }
      assert Counted(before.data, w);
      ok := WriteRemoval(w, target, refund);
      if !ok {
        data := d;
        return;
      }
      RemoveStep(before, tx, w, admin, target, refund, Now());
    }

    /** The checks of TransferOwnership up to the derivation of the new address. */
    method AdmitTransfer(tx: Tx, w: Address, current: Address, kind: Kind, refund: Address) returns (ok: bool)
      modifies this`data
      ensures ok <==> MayTransfer(old(Now()), tx, w, current, kind, refund)
      ensures ok ==> data == old(data)[current := Ticked(At(old(data), current))]
      ensures !ok ==> data == old(data)
    {
      var a := At(data, current);
      ok := PayerSigns(tx) && At(data, w).Wallet? && a.Authority? && a.wallet == w && a.role == OWNER &&
          |a.policy| == 0;
      ok := ok && Usable(kind);
      if ok {
        ok := Authenticate(tx, ToTransfer(kind, refund), w, current);
      }
    }

    /** The writes of TransferOwnership: the new Owner is written, then the old one closed. */
    method WriteOwner(tx: Tx, w: Address, current: Address, kind: Kind, refund: Address) returns (ok: bool)
      modifies this`lamports, this`data
      ensures ok <==> && CanCreate(old(Now()), tx, AuthorityAt(w, kind), MinimumBalance(tx, AuthoritySpace(kind)))
                      && CanClose(Funded(old(Now()), tx, AuthorityAt(w, kind),
                          MinimumBalance(tx, AuthoritySpace(kind))), current, refund)
      ensures ok ==> && data == old(data)[AuthorityAt(w, kind) := Born(w, kind, OWNER, [])][current := Zeroed]
                     && lamports == Drained(Funded(old(Now()), tx, AuthorityAt(w, kind),
                         MinimumBalance(tx, AuthoritySpace(kind))), current, refund)
      ensures !ok ==> lamports == old(lamports) && data == old(data)
    {
      var (l, d) := (lamports, data);
      ok := InitializePda(tx, AuthorityAt(w, kind), AuthoritySpace(kind), Born(w, kind, OWNER, []));
      if ok {
        ok := CloseAccount(current, refund);
      }
      if !ok {
        lamports, data := l, d;
      }
    }

    /** `transfer_ownership.rs`. */
    method TransferOwnership(tx: Tx, w: Address, current: Address, kind: Kind, refund: Address) returns (ok: bool)
      requires Inv(data) && RuntimeTx(tx)
      modifies this
      ensures ok <==> && MayTransfer(old(Now()), tx, w, current, kind, refund)
                      && CanCreate(old(Now()), tx, AuthorityAt(w, kind), MinimumBalance(tx, AuthoritySpace(kind)))
                      && CanClose(Funded(old(Now()), tx, AuthorityAt(w, kind),
                          MinimumBalance(tx, AuthoritySpace(kind))), current, refund)
      ensures ok ==> Step(old(Now()), tx, WalletProgram.TransferOwnership(w, current, kind, refund), Now()) && Inv(data)
      ensures !ok ==> Now() == old(Now())
    {
      ghost var before := Now();
      var d := data;
      ok := AdmitTransfer(tx, w, current, kind, refund);
      if !ok {
        return;
      }
      TickedCreate(before, tx, current, AuthorityAt(w, kind), MinimumBalance(tx, AuthoritySpace(kind)));
      ok := WriteOwner(tx, w, current, kind, refund);
      if !ok {
        data := d;
        return;
      }
      TransferStep(before, tx, w, current, kind, refund, Now());
    }

    /** The checks of CreateSession up to the derivation of its address. */
    method AdmitSession(
        tx: Tx, w: Address, authorizer: Address, key: Key, expiresAt: u64, policy: seq<byte>) returns (ok: bool)
      modifies this`data
      ensures ok <==> MayOpen(old(Now()), tx, w, authorizer, key, expiresAt, policy)
      ensures ok ==> data == old(data)[authorizer := Ticked(At(old(data), authorizer))]
      ensures !ok ==> data == old(data)
    {
      var a := At(data, authorizer);
      ok := PolicyOk(policy);
      ok := ok && PayerSigns(tx) && At(data, w).Wallet?
            && a.Authority? && a.wallet == w && (a.role == OWNER || a.role == ADMIN) && |a.policy| == 0
            && slot < expiresAt <= SatAdd(slot, MAX_SESSION_SLOTS);
      if ok {
        ok := Authenticate(tx, ToOpen(key, expiresAt, policy), w, authorizer);
      }
    }

    /** `session/create.rs`. */
    method CreateSession(
        tx: Tx, w: Address, authorizer: Address, key: Key, expiresAt: u64, policy: seq<byte>) returns (ok: bool)
      requires Inv(data) && RuntimeTx(tx)
      modifies this
      ensures ok <==>
              && MayOpen(old(Now()), tx, w, authorizer, key, expiresAt, policy)
              && CanCreate(old(Now()), tx, SessionKey(w, key), MinimumBalance(tx, SESSION_SPACE + |policy|))
      ensures ok ==>
                Step(old(Now()), tx, WalletProgram.CreateSession(w, authorizer, key, expiresAt, policy), Now()) &&
                    Inv(data)
      ensures !ok ==> Now() == old(Now())
    {
      ghost var before := Now();
      var d := data;
      ok := AdmitSession(tx, w, authorizer, key, expiresAt, policy);
      if !ok {
        return;
      }
      TickedCreate(before, tx, authorizer, SessionKey(w, key), MinimumBalance(tx, SESSION_SPACE + |policy|));
      ok := InitializePda(tx, SessionKey(w, key), SESSION_SPACE + |policy|, Session(w, key, expiresAt, policy));
      if !ok {
        data := d;
        return;
      }
      SessionStep(before, tx, w, authorizer, key, expiresAt, policy, Now());
    }

    /** The checks of Authorize up to the derivation of its address. */
    method AdmitAuthorize(
        tx: Tx, w: Address, authority: Address, ih: Key, ah: Key, expiryOffset: nat) returns (ok: bool)
      modifies this`data
      ensures ok <==> MayAuthorize(old(Now()), tx, w, authority, ih, ah, expiryOffset)
      ensures ok ==> data == old(data)[authority := Ticked(At(old(data), authority))]
      ensures !ok ==> data == old(data)
    {
      var a := At(data, authority);
      ok := PayerSigns(tx) && At(data, w).Wallet? && MIN_EXPIRY_SLOTS <= expiryOffset <= MAX_EXPIRY_SLOTS
            && a.Authority? && a.wallet == w && a.kind.Secp256r1? && a.role <= ADMIN && |a.policy| == 0
            && slot + expiryOffset <= U64_MAX;
      if ok {
        ok := Authenticate(tx, ToAuthorize(ih, ah, expiryOffset), w, authority);
      }
    }

    /** `execute/authorize.rs`: the address comes from the counter just committed. */
    method Authorize(tx: Tx, w: Address, authority: Address, ih: Key, ah: Key, expiryOffset: nat) returns (ok: bool)
      requires Inv(data) && RuntimeTx(tx)
      modifies this
      ensures ok <==>
              && MayAuthorize(old(Now()), tx, w, authority, ih, ah, expiryOffset)
              && CanCreate(old(Now()), tx, DeferredAddress(old(Now()), w, authority),
                  MinimumBalance(tx, DEFERRED_SPACE))
      ensures ok ==>
                Step(old(Now()), tx, WalletProgram.Authorize(w, authority, ih, ah, expiryOffset), Now()) && Inv(data)
      ensures !ok ==> Now() == old(Now())
    {
      ghost var before := Now();
      var d := data;
      ok := AdmitAuthorize(tx, w, authority, ih, ah, expiryOffset);
      if !ok {
        return;
      }
      var at := DeferredKey(w, authority, At(data, authority).counter);
      assert at == DeferredAddress(before, w, authority);
      TickedCreate(before, tx, authority, at, MinimumBalance(tx, DEFERRED_SPACE));
      ok := InitializePda(tx, at, DEFERRED_SPACE, Deferred(w, authority, tx.payer, ih, ah, slot + expiryOffset));
      if !ok {
        data := d;
        return;
      }
      AuthorizeStep(before, tx, w, authority, ih, ah, expiryOffset, Now());
    }

    /** `execute/reclaim.rs`, for an authorization of either version. */
    method ReclaimDeferred(tx: Tx, deferred: Address, refund: Address) returns (ok: bool)
      requires Inv(data) && RuntimeTx(tx)
      modifies this
      ensures ok <==> CanReclaim(old(Now()), tx, deferred, refund)
      ensures ok ==> Step(old(Now()), tx, WalletProgram.ReclaimDeferred(deferred, refund), Now()) && Inv(data)
      ensures !ok ==> Now() == old(Now())
    {
      ghost var before := Now();
      if !PayerSigns(tx) {
        return false;
      }
      var c := At(data, deferred);
      if !c.Deferred? && !c.LegacyDeferred? {
        return false;
      }
      if c.payer != tx.payer || refund != c.payer || slot <= c.expiresAt {
        return false;
      }
      ok := CloseAccount(deferred, refund);
      if ok {
        InvStep(before, tx, WalletProgram.ReclaimDeferred(deferred, refund), Now());
      }
    }

    /** The inner calls, one after the other. */
    method RunCalls(calls: seq<State>)
      requires forall j :: 0 <= j < |calls| ==> calls[j].slot == slot
      modifies this`lamports, this`data
      ensures Now() == if calls == [] then old(Now()) else calls[|calls| - 1]
    {
      for j := 0 to |calls|
        invariant Now() == if j == 0 then old(Now()) else calls[j - 1]
      {
        lamports, data := calls[j].lamports, calls[j].data;
      }
    }

    /** What the instruction must present: the very hashes that were authorized. */
    method CheckDeferred(
        tx: Tx, w: Address, deferred: Address, refund: Address, sha: Sha, bytes: seq<byte>, list: C.Listing)
      returns (ok: bool)
      ensures ok <==>
              && HashesOf(sha, bytes, list).Some?
              && CanStartDeferred(Now(), tx, w, deferred, refund, HashesOf(sha, bytes, list).value.0,
                  HashesOf(sha, bytes, list).value.1)
    {
      var c := At(data, deferred);
      if !(tx.topLevel && PayerSigns(tx) && At(data, w).Wallet? && c.Deferred? && c.wallet == w &&
          c.payer == refund && slot <= c.expiresAt) {
        return false;
      }
      var parsed := C.ParseCompactInstructions(bytes);
      if parsed.None? {
        return false;
      }
      C.SerializeInvertsParse(bytes);
      var (ixs, used) := parsed.value;
      if c.instructionsHash != sha(bytes[..used]) {
        return false;
      }
      var preimage := C.AccountsHashPreimage(ixs, list);
      ok := preimage.Some? && c.accountsHash == sha(preimage.value);
    }

    /**
     `execute/deferred.rs`. `calls` is the chain after each inner call, as the runtime allows it;
     a call that fails fails the transaction. The record is consumed before the first call, and
     the rent moves after the last.
     */
    method ExecuteDeferred(
      tx: Tx, w: Address, deferred: Address, refund: Address, sha: Sha, bytes: seq<byte>, list: C.Listing,
      calls: seq<State>, callsSucceed: bool)
      returns (ok: bool)
      requires Inv(data) && RuntimeTx(tx)
      requires Calls(Consumed(Now(), deferred), calls, InnerSigners(tx, w))
      modifies this
      ensures ok <==>
              && callsSucceed && HashesOf(sha, bytes, list).Some?
              && CanStartDeferred(old(Now()), tx, w, deferred, refund, HashesOf(sha, bytes, list).value.0,
                  HashesOf(sha, bytes, list).value.1)
              && CanClose(Last(Consumed(old(Now()), deferred), calls).lamports, deferred, refund)
      ensures ok ==>
                && Step(old(Now()), tx,
                    Executed(old(Now()), w, deferred, refund, HashesOf(sha, bytes, list).value, calls), Now())
                && Inv(data)
      ensures ok ==> forall j :: 0 <= j < |calls| ==> At(calls[j].data, deferred).Zeroed?
      ensures !ok ==> Now() == old(Now())
    {
      ghost var before := Now();
      var (l, d) := (lamports, data);
      ok := CheckDeferred(tx, w, deferred, refund, sha, bytes, list);
      if !ok {
        return;
      }
      assert Shaped(before.data, deferred);
      data := data[deferred := Zeroed];
      ConsumedCalls(before, deferred, calls, InnerSigners(tx, w));
      RunCalls(calls);
      ghost var last := Now();
      ok := callsSucceed;
      if ok {
        ok := CloseAccount(deferred, refund);
      }
      if !ok {
        lamports, data := l, d;
        return;
      }
      ghost var hashes := HashesOf(sha, bytes, list).value;
      ExecuteDeferredStep(before, tx, w, deferred, refund, hashes.0, hashes.1, last, Now());
    }
  }

  // ---------------------------------------------------------------------------
  // The writes amount to the step
  // ---------------------------------------------------------------------------

  /** The chain once the wallet is paid for, its record apart. */
  function WithWallet(s: State, tx: Tx, w: Address): State {
    State(Funded(s, tx, w, MinimumBalance(tx, WALLET_SPACE)), s.data[w := Wallet(1)], s.slot)
  }

  /** Creating the first Owner after the wallet's record is there is as good as before it. */
  lemma CreateParts(s: State, tx: Tx, seed: Key, kind: Kind)
    ensures var w := WalletKey(seed);
            var a, need := AuthorityAt(w, kind), MinimumBalance(tx, AuthoritySpace(kind));
            && (CanCreateWallet(s, tx, seed, kind) <==>
                && Usable(kind) && PayerSigns(tx) && At(s.data, a).Empty?
                && CanCreate(s, tx, w, MinimumBalance(tx, WALLET_SPACE))
                && CanCreate(WithWallet(s, tx, w), tx, a, need))
            && Funded(WithWallet(s, tx, w), tx, a, need)
               == Funded(s.(lamports := Funded(s, tx, w, MinimumBalance(tx, WALLET_SPACE))), tx, a, need)
  {
  }

  lemma CreateStep(s: State, tx: Tx, seed: Key, kind: Kind, t: State)
    requires Inv(s.data) && RuntimeTx(tx) && CanCreateWallet(s, tx, seed, kind)
    requires var w := WalletKey(seed);
             && t.data == s.data[w := Wallet(1)][AuthorityAt(w, kind) := Born(w, kind, OWNER, [])]
             && t.lamports == Funded(WithWallet(s, tx, w), tx, AuthorityAt(w, kind),
                 MinimumBalance(tx, AuthoritySpace(kind)))
             && t.slot == s.slot
    ensures Step(s, tx, WalletProgram.CreateWallet(seed, kind), t) && Inv(t.data)
  {
    var i := WalletProgram.CreateWallet(seed, kind);
    CreateParts(s, tx, seed, kind);
    ClosingFine(s, tx, i);
    InvStep(s, tx, i, t);
  }

  lemma AddRecords(s: State, tx: Tx, w: Address, admin: Address, kind: Kind, role: byte, policy: seq<byte>)
    requires Inv(s.data) && RuntimeTx(tx) && CanAddAuthority(s, tx, w, admin, kind, role, policy)
    ensures var i := WalletProgram.AddAuthority(w, admin, kind, role, policy);
            var d := s.data[admin := Ticked(At(s.data, admin))];
            var e := d[AuthorityAt(w, kind) := Born(w, kind, role, policy)];
            Made(Between(s, i), Closing(s, tx, i)) == if role == OWNER
                then e[w := Wallet(At(s.data, w).ownerCount + 1)] else e
  {
    var i := WalletProgram.AddAuthority(w, admin, kind, role, policy);
    assert Shaped(s.data, w);
    ClosingFine(s, tx, i);
    OpeningFine(s, tx, i);
  }

  lemma AddStep(s: State, tx: Tx, w: Address, admin: Address, kind: Kind, role: byte, policy: seq<byte>, t: State)
    requires Inv(s.data) && RuntimeTx(tx) && MayAdd(s, tx, w, admin, kind, role, policy)
    requires CanCreate(s, tx, AuthorityAt(w, kind), MinimumBalance(tx, AuthoritySpace(kind) + |policy|))
    requires role == OWNER ==> At(s.data, w).ownerCount < U32_MAX
    requires var d := s.data[admin := Ticked(At(s.data, admin))];
             var e := d[AuthorityAt(w, kind) := Born(w, kind, role, policy)];
             t.data == if role == OWNER then e[w := Wallet(At(s.data, w).ownerCount + 1)] else e
    requires t.lamports == Funded(s, tx, AuthorityAt(w, kind), MinimumBalance(tx, AuthoritySpace(kind) + |policy|))
    requires t.slot == s.slot
    ensures Step(s, tx, WalletProgram.AddAuthority(w, admin, kind, role, policy), t) && Inv(t.data)
  {
    AddRecords(s, tx, w, admin, kind, role, policy);
    InvStep(s, tx, WalletProgram.AddAuthority(w, admin, kind, role, policy), t);
  }

  lemma RemoveStep(s: State, tx: Tx, w: Address, admin: Address, target: Address, refund: Address, t: State)
    requires Inv(s.data) && RuntimeTx(tx) && MayRemove(s, tx, w, admin, target, refund)
    requires CanClose(s.lamports, target, refund)
    requires var d := s.data[admin := Ticked(At(s.data, admin))];
             t.data == (if At(s.data, target).role == OWNER then d[w := Wallet(At(s.data, w).ownerCount - 1)]
                 else d)[target := Zeroed]
    requires t.lamports == Drained(s.lamports, target, refund) && t.slot == s.slot
    ensures Step(s, tx, WalletProgram.RemoveAuthority(w, admin, target, refund), t) && Inv(t.data)
  {
    var i := WalletProgram.RemoveAuthority(w, admin, target, refund);
    ClosingFine(s, tx, i);
    assert t.data == Do(Between(s, i), Drop(w, target));
    InvStep(s, tx, i, t);
  }

  lemma TransferStep(s: State, tx: Tx, w: Address, current: Address, kind: Kind, refund: Address, t: State)
    requires Inv(s.data) && RuntimeTx(tx) && MayTransfer(s, tx, w, current, kind, refund)
    requires CanCreate(s, tx, AuthorityAt(w, kind), MinimumBalance(tx, AuthoritySpace(kind)))
    requires CanClose(Funded(s, tx, AuthorityAt(w, kind), MinimumBalance(tx, AuthoritySpace(kind))), current, refund)
    requires var d := s.data[current := Ticked(At(s.data, current))];
             t.data == d[AuthorityAt(w, kind) := Born(w, kind, OWNER, [])][current := Zeroed]
    requires t.lamports == Drained(Funded(s, tx, AuthorityAt(w, kind), MinimumBalance(tx, AuthoritySpace(kind))),
              current, refund)
    requires t.slot == s.slot
    ensures Step(s, tx, WalletProgram.TransferOwnership(w, current, kind, refund), t) && Inv(t.data)
  {
    var i := WalletProgram.TransferOwnership(w, current, kind, refund);
    ClosingFine(s, tx, i);
    assert t.data == Do(Between(s, i), Swap(w, current, kind));
    InvStep(s, tx, i, t);
  }

  lemma SessionStep(
      s: State, tx: Tx, w: Address, authorizer: Address, key: Key, expiresAt: u64, policy: seq<byte>, t: State)
    requires Inv(s.data) && RuntimeTx(tx) && CanCreateSession(s, tx, w, authorizer, key, expiresAt, policy)
    requires var d := s.data[authorizer := Ticked(At(s.data, authorizer))];
             t.data == d[SessionKey(w, key) := Session(w, key, expiresAt, policy)]
    requires t.lamports == Funded(s, tx, SessionKey(w, key), MinimumBalance(tx, SESSION_SPACE + |policy|))
    requires t.slot == s.slot
    ensures Step(s, tx, WalletProgram.CreateSession(w, authorizer, key, expiresAt, policy), t) && Inv(t.data)
  {
    var i := WalletProgram.CreateSession(w, authorizer, key, expiresAt, policy);
    ClosingFine(s, tx, i);
    InvStep(s, tx, i, t);
  }

  lemma AuthorizeStep(s: State, tx: Tx, w: Address, authority: Address, ih: Key, ah: Key, offset: nat, t: State)
    requires Inv(s.data) && RuntimeTx(tx) && CanAuthorize(s, tx, w, authority, ih, ah, offset)
    requires var d := s.data[authority := Ticked(At(s.data, authority))];
             t.data == d[DeferredAddress(s, w, authority) := Deferred(w, authority, tx.payer, ih, ah, s.slot + offset)]
    requires t.lamports == Funded(s, tx, DeferredAddress(s, w, authority), MinimumBalance(tx, DEFERRED_SPACE))
    requires t.slot == s.slot
    ensures Step(s, tx, WalletProgram.Authorize(w, authority, ih, ah, offset), t) && Inv(t.data)
  {
    var i := WalletProgram.Authorize(w, authority, ih, ah, offset);
    ClosingFine(s, tx, i);
    InvStep(s, tx, i, t);
  }

  lemma ExecuteDeferredStep(
      s: State, tx: Tx, w: Address, deferred: Address, refund: Address, ih: Key, ah: Key, m: State, t: State)
    requires Inv(s.data) && RuntimeTx(tx) && CanStartDeferred(s, tx, w, deferred, refund, ih, ah)
    requires Effects(Consumed(s, deferred), m, InnerSigners(tx, w)) && CanClose(m.lamports, deferred, refund)
    requires t.data == m.data[deferred := Zeroed]
    requires t.lamports == Drained(m.lamports, deferred, refund) && t.slot == s.slot
    ensures Step(s, tx, WalletProgram.ExecuteDeferred(w, deferred, refund, ih, ah, m), t) && Inv(t.data)
  {
    var i := WalletProgram.ExecuteDeferred(w, deferred, refund, ih, ah, m);
    assert Shaped(s.data, deferred);
    assert At(m.data, deferred) == Zeroed;
    assert t.data == m.data;
    InvStep(s, tx, i, t);
  }

  /** The chain once the authorization is consumed. */
  ghost function Consumed(s: State, deferred: Address): State {
    s.(data := Do(s.data, Erase(deferred)))
  }

  /** Inner calls one after the other. */
  ghost predicate Calls(s: State, calls: seq<State>, signers: set<Address>) {
    forall j :: 0 <= j < |calls| ==> CallAt(s, calls, signers, j)
  }

  ghost predicate CallAt(s: State, calls: seq<State>, signers: set<Address>, j: nat)
    requires j < |calls|
  {
    Effects(if j == 0 then s else calls[j - 1], calls[j], signers)
  }

  /** A moved odometer changes nothing for the account to be created. */
  lemma TickedCreate(s: State, tx: Tx, a: Address, target: Address, need: nat)
    requires At(s.data, a).Authority?
    ensures var t := s.(data := s.data[a := Ticked(At(s.data, a))]);
            (CanCreate(t, tx, target, need) <==> CanCreate(s, tx, target, need)) &&
                Funded(t, tx, target, need) == Funded(s, tx, target, need)
  {
  }

  ghost function Last(s: State, calls: seq<State>): State {
    if calls == [] then s else calls[|calls| - 1]
  }

  /** The instruction, with the state the calls end in. */
  ghost function Executed(
      s: State, w: Address, deferred: Address, refund: Address, hashes: (Key, Key), calls: seq<State>): Instr {
    WalletProgram.ExecuteDeferred(w, deferred, refund, hashes.0, hashes.1, Last(Consumed(s, deferred), calls))
  }

  /** The hashes of the instructions and of the accounts they name. */
  function HashesOf(sha: Sha, bytes: seq<byte>, list: C.Listing): Option<(Key, Key)> {
    match C.Parse(bytes)
    case None => None
    case Some((ixs, used)) =>
      if !(0 <= used <= |bytes|) || C.Preimage(ixs, list).None? then None
      else Some((sha(bytes[..used]), sha(C.Preimage(ixs, list).value)))
  }

  /** Calls in a row are one call, and what was consumed before the first stays consumed. */
  lemma {:induction false} CallsCompose(s: State, calls: seq<State>, signers: set<Address>, j: nat)
    requires Inv(s.data) && Calls(s, calls, signers) && j <= |calls|
    ensures Effects(s, if j == 0 then s else calls[j - 1], signers)
  {
    if j == 0 {
      EffectsStart(s, signers);
    } else {
      CallsCompose(s, calls, signers, j - 1);
      assert CallAt(s, calls, signers, j - 1);
      if j > 1 {
        EffectsCompose(s, calls[j - 2], calls[j - 1], signers);
      }
    }
  }

  lemma ConsumedCalls(s: State, deferred: Address, calls: seq<State>, signers: set<Address>)
    requires Inv(s.data) && At(s.data, deferred).Deferred? && Calls(Consumed(s, deferred), calls, signers)
    ensures Consumed(s, deferred).data == s.data[deferred := Zeroed]
    ensures Effects(Consumed(s, deferred), Last(Consumed(s, deferred), calls), signers)
    ensures forall j :: 0 <= j < |calls| ==> calls[j].slot == s.slot && At(calls[j].data, deferred).Zeroed?
  {
    assert Shaped(s.data, deferred);
    InvDone(s.data, Erase(deferred));
    CallsCompose(Consumed(s, deferred), calls, signers, |calls|);
    forall j | 0 <= j < |calls|
      ensures calls[j].slot == s.slot && At(calls[j].data, deferred).Zeroed?
    {
      CallsCompose(Consumed(s, deferred), calls, signers, j + 1);
    }
  }

  lemma EffectsStart(s: State, signers: set<Address>)
    requires Inv(s.data)
    ensures Effects(s, s, signers)
  {
    AgreeRefl(s.data);
    EffectsRefl(s, signers);
  }
}
