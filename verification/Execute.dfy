/**
 Execute (`program/src/processor/execute/immediate.rs`): authenticate a signer, run the inner
 instructions it asked for with the vault as signer, and, when the signer carries a policy,
 accept the result only if the policy admits it.

 The inner instructions are code this program cannot see. They are modelled as any sequence of
 account states in which read-only accounts never change; that is all the runtime promises here.
 Accounts this program owns keep their data, because self-calls are refused, so the signer's
 own account is kept apart from the states the inner instructions produce.
 */
module Execute {
  import opened Bytes
  import opened ActionBuffer
  import opened Limits
  import opened PolicyEngine
  import opened TokenAccounts
  import opened Sums
  import C = Compact
  import P = Passkey

  const DISC_WALLET: byte := 0x21
  const DISC_AUTHORITY: byte := 0x22
  const DISC_SESSION: byte := 0x23
  const ACCOUNT_VERSION: byte := 1

  /** Execute's own instruction discriminator. */
  const DISC_EXECUTE: byte := 4

  const SESSION_HEADER: nat := 80
  const ED25519_LEN: nat := 80
  const SECP256R1_LEN: nat := 145

  datatype ExecuteError =
    | NotEnoughAccountKeys | MissingRequiredSignature | IllegalOwner | InvalidAccountData
    | InvalidInstructionData | InvalidSeeds | InvalidAuthenticationKind | AuthenticationFailed
    | SessionRefused | SelfReentrancyNotAllowed
    | SessionVaultOwnerChanged | SessionVaultDataLenChanged | SessionTokenAuthorityChanged
    | PolicyRefused(error: PolicyError)

  // ---------------------------------------------------------------------------
  // Where a policy lives (`state/policy.rs`)
  // ---------------------------------------------------------------------------

  /** `PolicyLocation::of`: resolved from the account's own discriminator and type. */
  function PolicyLocation(data: seq<byte>): Option<nat> {
    if data == [] then None
    else if data[0] == DISC_SESSION then Some(SESSION_HEADER)
    else if data[0] == DISC_AUTHORITY && |data| > 1 then
      if data[1] == 0 then Some(ED25519_LEN)
      else if data[1] == 1 then Some(SECP256R1_LEN)
      else None
    else None
  }

  /** The policy offset, when there is a policy behind it. */
  function PolicyAt(data: seq<byte>): Option<nat> {
    match PolicyLocation(data)
    case Some(loc) => if |data| > loc then Some(loc) else None
    case None => None
  }

  ghost predicate PolicySound(data: seq<byte>) {
    PolicyAt(data).Some? ==> Runnable(data[PolicyAt(data).value..])
  }

  // ---------------------------------------------------------------------------
  // The vault's lamports along the way
  // ---------------------------------------------------------------------------

  /** The tracking loop: every fall between two neighbouring points, saturating. */
  function GrossOut(trace: seq<u64>): u64
    decreases |trace|
  {
    if |trace| <= 1 then 0
    else
      var n := |trace| - 1;
      var fall := SatSub(trace[n - 1], trace[n]);
      SatAdd(GrossOut(trace[..n]), fall)
  }

  lemma {:induction false} GrossMonotone(trace: seq<u64>, j: nat)
    requires 0 < j <= |trace|
    ensures GrossOut(trace[..j]) <= GrossOut(trace)
    decreases |trace|
  {
    if j == |trace| {
      assert trace[..j] == trace;
    } else {
      var n := |trace| - 1;
      GrossMonotone(trace[..n], j);
      assert trace[..n][..j] == trace[..j];
    }
  }

  /** No dip between any two points of the loop is deeper than the gross outflow. */
  lemma {:induction false} GrossDominates(trace: seq<u64>, i: nat, j: nat)
    requires i <= j < |trace|
    ensures trace[i] - trace[j] <= GrossOut(trace)
    decreases j
  {
    GrossMonotone(trace, j + 1);
    if i < j {
      var upto := trace[..j + 1];
      GrossDominates(trace[..j], i, j - 1);
      assert upto[..j] == trace[..j];
      assert GrossOut(upto) == SatAdd(GrossOut(trace[..j]), SatSub(trace[j - 1], trace[j]));
    }
  }

  /** Every fall along the way, summed up without a bound. */
  function Falls(trace: seq<u64>): nat {
    if |trace| <= 1 then 0
    else (if trace[0] > trace[1] then trace[0] - trace[1] else 0) + Falls(trace[1..])
  }

  lemma {:induction false} FallsLast(trace: seq<u64>)
    requires |trace| > 1
    ensures var n := |trace| - 1;
            Falls(trace) == Falls(trace[..n]) + if trace[n - 1] > trace[n] then trace[n - 1] - trace[n] else 0
  {
    var n := |trace| - 1;
    if n > 1 {
      var rest := trace[1..];
      FallsLast(rest);
      assert rest[..n - 1] == trace[..n][1..];
    }
  }

  /** The gross outflow is the sum of all falls, capped at what a `u64` holds, and counts no rise. */
  lemma {:induction false} GrossIsFalls(trace: seq<u64>)
    ensures GrossOut(trace) == Min(Falls(trace), U64_MAX)
  {
    if |trace| > 1 {
      FallsLast(trace);
      GrossIsFalls(trace[..|trace| - 1]);
    }
  }

  /** Where the vault never gains on the way, gross and net are one. */
  lemma {:induction false} GrossIsNetWithoutRise(trace: seq<u64>)
    requires trace != [] && forall i :: 0 <= i < |trace| - 1 ==> trace[i] >= trace[i + 1]
    ensures var first: int, last: int := trace[0], trace[|trace| - 1];
            GrossOut(trace) == first - last
    decreases |trace|
  {
    if |trace| > 1 {
      var n := |trace| - 1;
      GrossIsNetWithoutRise(trace[..n]);
      assert trace[n - 1] >= trace[n - 1 + 1];
    }
  }

  // ---------------------------------------------------------------------------
  // What the runtime allows, and what an accepted Execute amounts to
  // ---------------------------------------------------------------------------

  /** Inner instructions may do anything to writable accounts and nothing to the rest. */
  ghost predicate MayFollow(list: C.Listing, a: Bank, b: Bank) {
    a.Keys == b.Keys && forall k :: k in a && k !in list.writable ==> a[k] == b[k]
  }

  ghost predicate Effects(list: C.Listing, bank: Bank, effects: seq<Bank>) {
    && |effects| == C.MAX_INSTRUCTIONS
    && MayFollow(list, bank, effects[0])
    && forall i :: 0 <= i < |effects| - 1 ==> MayFollow(list, effects[i], effects[i + 1])
  }

  ghost function After(bank: Bank, effects: seq<Bank>, n: nat): Bank
    requires n <= |effects|
  {
    if n == 0 then bank else effects[n - 1]
  }

  lemma {:induction false} ReadOnlyNeverChanges(list: C.Listing, bank: Bank, effects: seq<Bank>, n: nat)
    requires Effects(list, bank, effects) && n <= |effects|
    ensures MayFollow(list, bank, After(bank, effects, n))
  {
    if n > 0 {
      ReadOnlyNeverChanges(list, bank, effects, n - 1);
      assert n > 1 ==> MayFollow(list, effects[n - 2], effects[n - 1]);
    }
  }

  /** The vault's lamports before the loop and after each of its `n` instructions. */
  ghost function VaultTrace(bank: Bank, effects: seq<Bank>, vault: Key, n: nat): (t: seq<u64>)
    requires n <= |effects| && vault in bank && forall i :: 0 <= i < n ==> vault in effects[i]
    ensures |t| == n + 1
  {
    seq(n + 1, i requires 0 <= i <= n => After(bank, effects, i)[vault].lamports)
  }

  ghost predicate HoldsTokens(bank: Bank, vault: Key, key: Key) {
    key in bank && IsVaultToken(bank[key], vault)
  }

  /** The vault's token accounts, listed or not. */
  ghost function VaultTokens(bank: Bank, vault: Key): set<Key> {
    set k | k in bank && HoldsTokens(bank, vault, k)
  }

  /**
   Control of the vault is where it was: its owner and size, every token account it had but for
   the balance, and nobody else's rights on a token account it gained.
   */
  ghost predicate ControlKept(before: Bank, after: Bank, vault: Key)
    requires vault in before && vault in after && before.Keys == after.Keys
  {
    && after[vault].owner == before[vault].owner
    && |after[vault].data| == |before[vault].data|
    && (forall k :: k in before && HoldsTokens(before, vault, k) ==>
          before[k] == after[k] || Frozen(before[k], after[k]))
    && (forall k :: k in before && !HoldsTokens(before, vault, k) && HoldsTokens(after, vault, k) ==>
          before[k] == after[k] || Clean(after[k]))
  }

  /** How far the vault's whole holding of a mint fell, over every token account it had. */
  ghost function NetFall(before: Bank, after: Bank, vault: Key, mint: Key): nat
    requires AllTokens(before, VaultTokens(before, vault)) && AllTokens(after, VaultTokens(before, vault))
  {
    var keys := VaultTokens(before, vault);
    var b, a := TotalOf(before, before, keys, mint), TotalOf(before, after, keys, mint);
    if b > a then b - a else 0
  }

  /** The vault's holding of a mint is one a `u64` counts, as every SPL supply is. */
  ghost predicate HoldingFits(before: Bank, vault: Key, mint: Key)
    requires AllTokens(before, VaultTokens(before, vault))
  {
    TotalOf(before, before, VaultTokens(before, vault), mint) <= U64_MAX
  }

  lemma ControlKeepsTokens(before: Bank, after: Bank, vault: Key)
    requires vault in before && vault in after && before.Keys == after.Keys && ControlKept(before, after, vault)
    ensures AllTokens(before, VaultTokens(before, vault)) && AllTokens(after, VaultTokens(before, vault))
  {
    forall k | k in VaultTokens(before, vault) ensures k in after && |after[k].data| >= TOKEN_LEN {
      assert HoldsTokens(before, vault, k);
    }
  }

  /** Copied accounts are the writable ones; the rest of the vault's tokens did not move. */
  lemma FallIsMeasured(list: C.Listing, before: Bank, after: Bank, vault: Key, copied: set<Key>, mint: Key)
    requires vault in before && vault in after && MayFollow(list, before, after) && ControlKept(before, after, vault)
    requires AllTokens(before, VaultTokens(before, vault)) && AllTokens(after, VaultTokens(before, vault))
    requires AllTokens(before, copied) && AllTokens(after, copied)
    requires copied == WritableTokens(list, before, vault)
    requires HoldingFits(before, vault, mint)
    ensures SatSub(Min(TotalOf(before, before, copied, mint), U64_MAX),
              Min(TotalOf(before, after, copied, mint), U64_MAX))
         == NetFall(before, after, vault, mint)
  {
    var all := VaultTokens(before, vault);
    var b, a := Holdings(before, before, all, mint), Holdings(before, after, all, mint);
    var bIn, aIn := Holdings(before, before, copied, mint), Holdings(before, after, copied, mint);
    assert bIn == Within(b, list.writable) && aIn == Within(a, list.writable);
    SumDifference(b, a, list.writable);
  }

  // ---------------------------------------------------------------------------
  // Authentication of the signer account
  // ---------------------------------------------------------------------------

  /** `check_header`. */
  predicate HeaderOk(data: seq<byte>, disc: byte, versionAt: nat, minLen: nat)
    requires versionAt < minLen
  {
    |data| >= minLen && data[0] == disc && data[versionAt] == ACCOUNT_VERSION
  }

  /** What the signer sees of the transaction besides the accounts and the clock. */
  datatype Env = Env(stackHeight: nat, previous: Option<P.Instruction>)

  /** The passkey check of Execute: it signs the compact bytes and the hash of the accounts they name. */
  function PasskeyCall(sha: Sha, programId: Key, list: C.Listing, bytes: seq<byte>, env: Env, slot: u64): Option<P.Call>
    requires list.keys != []
  {
    match C.Parse(bytes)
    case None => None
    case Some((ixs, used)) =>
      if !(0 <= used <= |bytes|) || C.Preimage(ixs, list).None? then None
      else Some(P.Call(slot, env.stackHeight, list.keys, list.keys[0] in list.signers, env.previous,
                       bytes[used..], bytes[..used] + sha(C.Preimage(ixs, list).value), DISC_EXECUTE, programId))
  }

  predicate IsPasskey(data: seq<byte>) {
    |data| > 1 && data[0] == DISC_AUTHORITY && data[1] == 1
  }

  predicate IsSession(data: seq<byte>) {
    |data| >= SESSION_HEADER && data[0] == DISC_SESSION
  }

  function SessionOf(data: seq<byte>): Option<Key> {
    if IsSession(data) then Some(data[40..72]) else None
  }

  predicate KeySigns(data: seq<byte>, list: C.Listing, env: Env) {
    env.stackHeight <= 1 && |data| >= ED25519_LEN && data[48..80] in list.signers
  }

  predicate AssertionHolds(
      sha: Sha, data: seq<byte>, programId: Key, list: C.Listing, bytes: seq<byte>, env: Env, slot: u64) {
    && list.keys != [] && PasskeyCall(sha, programId, list, bytes, env, slot).Some?
    && P.Accepts(sha, data, PasskeyCall(sha, programId, list, bytes, env, slot).value)
  }

  predicate AuthoritySigns(
      sha: Sha, data: seq<byte>, programId: Key, wallet: Key, list: C.Listing, bytes: seq<byte>, env: Env, slot: u64) {
    && HeaderOk(data, DISC_AUTHORITY, 4, 48) && data[16..48] == wallet && data[1] <= 1
    && if data[1] == 1 then AssertionHolds(sha, data, programId, list, bytes, env, slot) else KeySigns(data, list, env)
  }

  predicate SessionSigns(data: seq<byte>, wallet: Key, list: C.Listing, env: Env, slot: u64) {
    && IsSession(data) && env.stackHeight <= 1
    && data[8..40] == wallet && slot <= ReadU64(data, 72) && data[40..72] in list.signers
  }

  /** Who may sign an Execute: an authority of the wallet by its key or passkey, or a live session of it. */
  predicate SignerOk(
      sha: Sha, data: seq<byte>, programId: Key, wallet: Key, list: C.Listing, bytes: seq<byte>, env: Env, slot: u64) {
    || AuthoritySigns(sha, data, programId, wallet, list, bytes, env, slot)
    || SessionSigns(data, wallet, list, env, slot)
  }

  /** The signer's account once it is authenticated: a passkey's counter has moved. */
  function Opened(data: seq<byte>): seq<byte> {
    if IsPasskey(data) && |data| >= P.HEADER_LEN && P.Counter(data) < U32_MAX then P.Advanced(data) else data
  }

  /** Moving the counter moves nothing the policy engine looks at. */
  lemma OpenedKeepsPolicy(data: seq<byte>)
    ensures |Opened(data)| == |data| && PolicyAt(Opened(data)) == PolicyAt(data)
    ensures SessionOf(Opened(data)) == SessionOf(data)
    ensures PolicyAt(data).Some? ==> Opened(data)[PolicyAt(data).value..] == data[PolicyAt(data).value..]
  {
    if IsPasskey(data) && |data| >= P.HEADER_LEN && P.Counter(data) < U32_MAX {
      var next := P.Advanced(data);
      P.AdvancedMoves(data);
      assert next[0] == data[0] && next[1] == data[1];
      if PolicyAt(data).Some? {
        var loc := PolicyAt(data).value;
        assert next[loc..] == next[12..][loc - 12..] && data[loc..] == data[12..][loc - 12..];
      }
    }
  }

  method AuthenticatePasskey(
    sha: Sha, authority: array<byte>, programId: Key, list: C.Listing, bytes: seq<byte>, env: Env, slot: u64)
    returns (e: Option<ExecuteError>)
    requires list.keys != [] && IsPasskey(authority[..])
    modifies authority
    ensures e.None? <==> old(AssertionHolds(sha, authority[..], programId, list, bytes, env, slot))
    ensures authority[..] == if e.None? then old(Opened(authority[..])) else old(authority[..])
  {
    var parsed := C.ParseCompactInstructions(bytes);
    if parsed.None? {
      return Some(InvalidInstructionData);
    }
    var (ixs, used) := parsed.value;
    C.SerializeInvertsParse(bytes);
    var preimage := C.AccountsHashPreimage(ixs, list);
    if preimage.None? {
      return Some(InvalidInstructionData);
    }
    var call := P.Call(slot, env.stackHeight, list.keys, list.keys[0] in list.signers, env.previous,
                       bytes[used..], bytes[..used] + sha(preimage.value), DISC_EXECUTE, programId);
    var refused := P.Authenticate(sha, authority, call);
    e := if refused.None? then None else Some(AuthenticationFailed);
  }

  /** The authentication branches, by the account's discriminator and type. */
  method AuthenticateSigner(
    sha: Sha, authority: array<byte>, programId: Key, wallet: Key, list: C.Listing, bytes: seq<byte>, env: Env,
        slot: u64)
    returns (e: Option<ExecuteError>)
    requires list.keys != []
    modifies authority
    ensures e.None? <==> old(SignerOk(sha, authority[..], programId, wallet, list, bytes, env, slot))
    ensures authority[..] == if e.None? then old(Opened(authority[..])) else old(authority[..])
  {
    var data := authority[..];
    if |data| > 0 && data[0] == DISC_AUTHORITY {
      if !HeaderOk(data, DISC_AUTHORITY, 4, 48) || data[16..48] != wallet {
        return Some(InvalidAccountData);
      }
      if data[1] > 1 {
        return Some(InvalidAuthenticationKind);
      }
      if data[1] == 1 {
        e := AuthenticatePasskey(sha, authority, programId, list, bytes, env, slot);
        return;
      }
      e := if KeySigns(data, list, env) then None else Some(MissingRequiredSignature);
    } else if IsSession(data) {
      e := if SessionSigns(data, wallet, list, env, slot) then None else Some(SessionRefused);
    } else {
      e := Some(InvalidAccountData);
    }
  }

  // ---------------------------------------------------------------------------
  // The processor
  // ---------------------------------------------------------------------------

  /** Every instruction can be rebuilt, and none targets this program. */
  ghost predicate Callable(issued: Option<seq<C.Cpi>>, programId: Key) {
    issued.Some? && forall i :: 0 <= i < |issued.value| ==> issued.value[i].program != programId
  }

  /** The inner loop: each instruction is rebuilt, refused if it targets this program, and run. */
  method RunInner(
      ixs: seq<C.CompactInstruction>, list: C.Listing, ctx: C.Context, programId: Key, bank: Bank, effects: seq<Bank>)
    returns (r: Result<seq<C.Cpi>, ExecuteError>, after: Bank, gross: u64)
    requires |ixs| <= C.MAX_INSTRUCTIONS && ctx.vault in bank && Effects(list, bank, effects)
    ensures forall i :: 0 <= i < |effects| ==> ctx.vault in effects[i]
    ensures r.Ok? <==> Callable(C.IssueAll(ixs, list, ctx), programId)
    ensures r.Ok? ==>
              && C.IssueAll(ixs, list, ctx) == Some(r.value)
              && after == After(bank, effects, |ixs|)
              && gross == GrossOut(VaultTrace(bank, effects, ctx.vault, |ixs|))
  {
    forall i | 0 <= i < |effects| ensures ctx.vault in effects[i] {
      ReadOnlyNeverChanges(list, bank, effects, i + 1);
    }
    var issued: seq<C.Cpi> := [];
    after, gross := bank, 0;
    var prev := bank[ctx.vault].lamports;
    assert ixs[0..] == ixs;
    if C.IssueAll(ixs, list, ctx).Some? {
      assert [] + C.IssueAll(ixs, list, ctx).value == C.IssueAll(ixs, list, ctx).value;
    }
    for i := 0 to |ixs|
      invariant after == After(bank, effects, i) && ctx.vault in after
      invariant prev == after[ctx.vault].lamports
      invariant gross == GrossOut(VaultTrace(bank, effects, ctx.vault, i))
      invariant forall j :: 0 <= j < |issued| ==> issued[j].program != programId
      invariant C.IssueAll(ixs, list, ctx) == Then(issued, C.IssueAll(ixs[i..], list, ctx))
    {
      assert ixs[i..][1..] == ixs[i + 1..];
      var cpi := C.Decompress(ixs[i], list, ctx);
      if cpi.None? {
        return Err(InvalidInstructionData), after, gross;
      }
      ThenStep(issued, cpi.value, C.IssueAll(ixs[i + 1..], list, ctx));
      if cpi.value.program == programId {
        SelfCallRefused(issued, cpi.value, C.IssueAll(ixs[i + 1..], list, ctx), programId);
        return Err(SelfReentrancyNotAllowed), after, gross;
      }
      issued := issued + [cpi.value];
      after := effects[i];
      var post := after[ctx.vault].lamports;
      ghost var trace := VaultTrace(bank, effects, ctx.vault, i + 1);
      assert trace[..i + 1] == VaultTrace(bank, effects, ctx.vault, i);
      if prev > post {
        gross := SatAdd(gross, prev - post);
      }
      prev := post;
    }
    assert ixs[|ixs|..] == [] && issued + [] == issued;
    r := Ok(issued);
  }

  ghost function Then(done: seq<C.Cpi>, rest: Option<seq<C.Cpi>>): Option<seq<C.Cpi>> {
    match rest case Some(cs) => Some(done + cs) case None => None
  }

  lemma ThenStep(done: seq<C.Cpi>, c: C.Cpi, rest: Option<seq<C.Cpi>>)
    ensures Then(done + [c], rest) == match rest case Some(cs) => Some(done + ([c] + cs)) case None => None
  {
    if rest.Some? {
      assert (done + [c]) + rest.value == done + ([c] + rest.value);
    }
  }

  lemma SelfCallRefused(done: seq<C.Cpi>, c: C.Cpi, rest: Option<seq<C.Cpi>>, programId: Key)
    requires c.program == programId
    ensures !Callable(Then(done + [c], rest), programId)
  {
    if rest.Some? {
      assert ((done + [c]) + rest.value)[|done|] == c;
    }
  }

  /** The vault's own account has its owner and size. */
  ghost predicate VaultKept(before: Bank, after: Bank, vault: Key)
    requires vault in before && vault in after
  {
    after[vault].owner == before[vault].owner && |after[vault].data| == |before[vault].data|
  }

  /** Each writable token account the vault had is frozen, each it gained is clean. */
  ghost predicate TokensHeld(list: C.Listing, before: Bank, after: Bank, vault: Key)
    requires before.Keys == after.Keys
  {
    forall k :: k in before && k in list.writable ==>
      && (HoldsTokens(before, vault, k) ==> Frozen(before[k], after[k]))
      && (!HoldsTokens(before, vault, k) && HoldsTokens(after, vault, k) ==> Clean(after[k]))
  }

  /** Nothing else can have changed, so control is where it was. */
  lemma HeldIsKept(list: C.Listing, before: Bank, after: Bank, vault: Key)
    requires vault in before && MayFollow(list, before, after)
    requires VaultKept(before, after, vault) && TokensHeld(list, before, after, vault)
    ensures ControlKept(before, after, vault)
  {
  }

  lemma TokensHeldIff(list: C.Listing, before: Bank, after: Bank, vault: Key)
    requires Listed(list, before) && Listed(list, after) && before.Keys == after.Keys
    requires forall k :: k in list.writable ==> k in list.keys
    ensures TokensHeld(list, before, after, vault) <==>
            forall p :: 0 <= p < |list.keys| ==> Kept(list, before, after, vault, list.keys[p])
  {
    if forall p :: 0 <= p < |list.keys| ==> Kept(list, before, after, vault, list.keys[p]) {
      forall k | k in before && k in list.writable
        ensures HoldsTokens(before, vault, k) ==> Frozen(before[k], after[k])
        ensures !HoldsTokens(before, vault, k) && HoldsTokens(after, vault, k) ==> Clean(after[k])
      {
        var p :| 0 <= p < |list.keys| && list.keys[p] == k;
        assert Kept(list, before, after, vault, list.keys[p]);
      }
    }
  }

  /** Owner, size and token-account checks after the loop. */
  method CheckControl(
      snaps: seq<Snapshot>, list: C.Listing, bank: Bank, after: Bank, vault: Key) returns (e: Option<ExecuteError>)
    requires vault in bank && Listed(list, bank) && MayFollow(list, bank, after)
    requires forall k :: k in list.writable ==> k in list.keys
    requires IsSnapshotOf(snaps, list, bank, vault)
    ensures e.None? <==> VaultKept(bank, after, vault) && TokensHeld(list, bank, after, vault)
    ensures e == Some(SessionVaultOwnerChanged) <==> after[vault].owner != bank[vault].owner
    ensures e == Some(SessionTokenAuthorityChanged) <==>
            VaultKept(bank, after, vault) && !TokensHeld(list, bank, after, vault)
  {
    if after[vault].owner != bank[vault].owner {
      return Some(SessionVaultOwnerChanged);
    }
    if |after[vault].data| != |bank[vault].data| {
      return Some(SessionVaultDataLenChanged);
    }
    assert Listed(list, after);
    TokensHeldIff(list, bank, after, vault);
    var ok := VerifyVaultTokenAccounts(snaps, list, bank, after, vault);
    if !ok {
      return Some(SessionTokenAuthorityChanged);
    }
    return None;
  }

  /** What an accepted Execute spent, as the engine measures it. */
  ghost predicate IsSpend(s: Spend, before: Bank, after: Bank, vault: Key, trace: seq<u64>, slot: u64)
    requires vault in before && vault in after
    requires AllTokens(before, VaultTokens(before, vault)) && AllTokens(after, VaultTokens(before, vault))
  {
    && s.slot == slot
    && s.gross == GrossOut(trace)
    && s.sol == SatSub(before[vault].lamports, after[vault].lamports)
    && (forall mint: Key ::
          HoldingFits(before, vault, mint) ==> s.TokenOut(mint) == NetFall(before, after, vault, mint))
  }

  /** The vault's token accounts an inner call could write to. */
  ghost function WritableTokens(list: C.Listing, bank: Bank, vault: Key): set<Key> {
    set k | k in VaultTokens(bank, vault) && k in list.writable
  }

  /** The measure the engine decides on: lamports net and gross, and each mint over those accounts. */
  ghost predicate IsMeasured(
      s: Spend, list: C.Listing, before: Bank, after: Bank, vault: Key, trace: seq<u64>, slot: u64)
    requires vault in before && vault in after
  {
    && s.slot == slot && s.gross == GrossOut(trace)
    && s.sol == SatSub(before[vault].lamports, after[vault].lamports)
    && AllTokens(before, WritableTokens(list, before, vault)) && AllTokens(after, WritableTokens(list, before, vault))
    && Measures(s.flows, before, after, WritableTokens(list, before, vault))
  }

  lemma PermittedWithin(p: Policy, s: Spend, u: Spend)
    requires s.slot == u.slot && s.gross == u.gross && s.sol == u.sol && Distinct(s.flows) && Distinct(u.flows)
    requires (forall mint: Key :: s.TokenOut(mint) == u.TokenOut(mint)) && Permitted(p, s)
    ensures Permitted(p, u)
  {
    forall f | f in u.flows && f.Outflow() > 0
      ensures NamesMint(p, f.mint)
    {
      var i :| 0 <= i < |u.flows| && u.flows[i] == f;
      FirstOutflowFinds(u.flows, i);
      assert s.TokenOut(f.mint) == u.TokenOut(f.mint) > 0;
      OnlyNamedMintsFall(p, s, f.mint);
    }
  }

  /** It decides: two readings of one measure are permitted together. */
  lemma MeasureDecides(
      p: Policy, s: Spend, u: Spend, list: C.Listing, before: Bank, after: Bank, vault: Key, trace: seq<u64>, slot: u64)
    requires vault in before && vault in after
    requires IsMeasured(s, list, before, after, vault, trace, slot)
    requires IsMeasured(u, list, before, after, vault, trace, slot)
    ensures Permitted(p, s) <==> Permitted(p, u)
  {
    forall mint: Key
      ensures s.TokenOut(mint) == u.TokenOut(mint)
    {
      MeasuredOutflow(s.flows, before, after, WritableTokens(list, before, vault), mint);
      MeasuredOutflow(u.flows, before, after, WritableTokens(list, before, vault), mint);
    }
    if Permitted(p, s) {
      PermittedWithin(p, s, u);
    }
    if Permitted(p, u) {
      PermittedWithin(p, u, s);
    }
  }

  lemma CopiedAreWritableTokens(snaps: seq<Snapshot>, list: C.Listing, bank: Bank, vault: Key)
    requires Listed(list, bank) && IsSnapshotOf(snaps, list, bank, vault)
    requires forall k :: k in list.writable ==> k in list.keys
    ensures forall i :: 0 <= i < |snaps| ==> snaps[i].index < |list.keys|
    ensures CopiedKeys(snaps, list) == WritableTokens(list, bank, vault)
  {
    forall i | 0 <= i < |snaps| ensures snaps[i].index < |list.keys| &&
        IsCandidate(list, bank, vault, list.keys[snaps[i].index]) {
      assert Copies(snaps[i], list, bank, vault);
    }
    forall k | k in VaultTokens(bank, vault) && k in list.writable ensures k in CopiedKeys(snaps, list) {
      var p :| 0 <= p < |list.keys| && list.keys[p] == k;
      var i := CandidateIsCopied(snaps, list, bank, vault, p);
    }
  }

  /** The measure the engine is given is the vault's real net movement. */
  lemma FlowsAreSpend(
      flows: seq<MintFlow>, snaps: seq<Snapshot>, list: C.Listing, before: Bank, after: Bank, vault: Key,
                      trace: seq<u64>, slot: u64)
    requires vault in before && Listed(list, before) && MayFollow(list, before, after)
    requires forall k :: k in list.writable ==> k in list.keys
    requires IsSnapshotOf(snaps, list, before, vault) && ControlKept(before, after, vault)
    requires forall i :: 0 <= i < |snaps| ==> snaps[i].index < |list.keys|
    requires AllTokens(before, CopiedKeys(snaps, list)) && AllTokens(after, CopiedKeys(snaps, list))
    requires Measures(flows, before, after, CopiedKeys(snaps, list))
    ensures AllTokens(before, VaultTokens(before, vault)) && AllTokens(after, VaultTokens(before, vault))
    ensures IsSpend(Spend(SatSub(before[vault].lamports, after[vault].lamports), GrossOut(trace), flows, slot),
                    before, after, vault, trace, slot)
  {
    ControlKeepsTokens(before, after, vault);
    CopiedAreWritableTokens(snaps, list, before, vault);
    var copied := CopiedKeys(snaps, list);
    forall mint: Key | HoldingFits(before, vault, mint)
      ensures FirstOutflow(flows, mint) == NetFall(before, after, vault, mint)
    {
      MeasuredOutflow(flows, before, after, copied, mint);
      FallIsMeasured(list, before, after, vault, copied, mint);
    }
  }

  ghost function Refusal(v: Option<PolicyError>): Option<ExecuteError> {
    if v.Some? then Some(PolicyRefused(v.value)) else None
  }

  /** Everything the program checks after the inner instructions of a policy-bearing signer. */
  method Settle(
      authority: array<byte>, loc: nat, snaps: seq<Snapshot>, list: C.Listing, bank: Bank, after: Bank, vault: Key,
                gross: u64, ghost trace: seq<u64>, slot: u64)
    returns (e: Option<ExecuteError>, ghost s: Spend)
    requires loc < authority.Length && Runnable(authority[loc..])
    requires vault in bank && Listed(list, bank) && MayFollow(list, bank, after) && gross == GrossOut(trace)
    requires forall k :: k in list.writable ==> k in list.keys
    requires IsSnapshotOf(snaps, list, bank, vault)
    modifies authority
    ensures e.Some? ==> authority[..] == old(authority[..])
    ensures e.None? ==> VaultKept(bank, after, vault) && TokensHeld(list, bank, after, vault)
    ensures VaultKept(bank, after, vault) && TokensHeld(list, bank, after, vault) ==>
              && IsMeasured(s, list, bank, after, vault, trace, slot)
              && (e.None? <==> Permitted(old(Meaning(authority[loc..])), s))
              && (e.Some? ==> Some(e.value) == Refusal(Verdict(old(Meaning(authority[loc..])), s)))
    ensures e.None? ==>
              && ControlKept(bank, after, vault)
              && AllTokens(bank, VaultTokens(bank, vault)) && AllTokens(after, VaultTokens(bank, vault))
              && IsSpend(s, bank, after, vault, trace, slot)
              && Permitted(old(Meaning(authority[loc..])), s)
              && Runnable(authority[loc..]) && Parse(authority[loc..]) == old(Parse(authority[loc..]))
              && Meaning(authority[loc..]) == ChargeAll(old(Meaning(authority[loc..])), s)
    ensures SameButCounters(old(authority[..]), authority[..], loc)
  {
    s := Spend(0, 0, [], slot);
    e := CheckControl(snaps, list, bank, after, vault);
    if e.Some? {
      return;
    }
    HeldIsKept(list, bank, after, vault);
    CopiedAreWritableTokens(snaps, list, bank, vault);
    ControlKeepsTokens(bank, after, vault);
    forall i | 0 <= i < |snaps| ensures |after[list.keys[snaps[i].index]].data| >= TOKEN_LEN {
      assert list.keys[snaps[i].index] in CopiedKeys(snaps, list);
    }
    var flows := MintFlows(snaps, list, bank, after, vault);
    FlowsAreSpend(flows, snaps, list, bank, after, vault, trace, slot);
    s := Spend(SatSub(bank[vault].lamports, after[vault].lamports), gross, flows, slot);
    ghost var p := Meaning(authority[loc..]);
    var refused := EvaluatePostActions(authority, loc, bank[vault].lamports, after[vault].lamports, gross, flows, slot);
    VerdictMeansPermitted(p, s);
    if refused.Some? {
      e := Some(PolicyRefused(refused.value));
    }
  }

  /** The checks on the four leading accounts, before anything is parsed. */
  function Preflight(programId: Key, list: C.Listing, bank: Bank): Option<ExecuteError> {
    if |list.keys| < 4 then Some(NotEnoughAccountKeys)
    else if list.keys[0] !in list.signers then Some(MissingRequiredSignature)
    else if list.keys[1] !in bank || list.keys[2] !in bank || list.keys[3] !in bank then Some(InvalidAccountData)
    else if bank[list.keys[1]].owner != programId || bank[list.keys[2]].owner != programId then Some(IllegalOwner)
    else if !HeaderOk(bank[list.keys[1]].data, DISC_WALLET, 2, 8) || list.keys[2] !in list.writable then
      Some(InvalidAccountData)
    else None
  }

  /** What an accepted Execute of a policy-bearing signer amounts to; `data` is its account before the calls. */
  ghost predicate Outcome(
    list: C.Listing, bank: Bank, after: Bank, vault: Key, trace: seq<u64>, cpis: seq<C.Cpi>, slot: u64,
    data: seq<byte>, loc: nat, s: Spend, dataAfter: seq<byte>)
    requires loc <= |data| && Runnable(data[loc..])
  {
    && vault in bank && MayFollow(list, bank, after) && vault in after
    && ControlKept(bank, after, vault)
    && AllTokens(bank, VaultTokens(bank, vault)) && AllTokens(after, VaultTokens(bank, vault))
    && IsSpend(s, bank, after, vault, trace, slot)
    && (forall i :: 0 <= i < |cpis| ==> MayCall(Meaning(data[loc..]), cpis[i].program, slot))
    && Permitted(Meaning(data[loc..]), s)
    && |dataAfter| == |data| && SameButCounters(data, dataAfter, loc)
    && Runnable(dataAfter[loc..]) && Parse(dataAfter[loc..]) == Parse(data[loc..])
    && Meaning(dataAfter[loc..]) == ChargeAll(Meaning(data[loc..]), s)
  }

  function ProgramIndices(ixs: seq<C.CompactInstruction>): (r: seq<byte>)
    ensures |r| == |ixs| && forall i :: 0 <= i < |ixs| ==> r[i] == ixs[i].programIndex
  {
    seq(|ixs|, i requires 0 <= i < |ixs| => ixs[i].programIndex)
  }

  /** The fourth account is the vault, and the calls can be made. */
  ghost predicate Carried(
      ixs: seq<C.CompactInstruction>, list: C.Listing, programId: Key, vaultKey: Key, session: Option<Key>)
    requires |list.keys| >= 4
  {
    && list.keys[3] == vaultKey
    && Callable(C.IssueAll(ixs, list, C.Context(list.keys[0], vaultKey, session)), programId)
  }

  /** An Execute under a policy comes to be judged by what it spent. */
  ghost predicate Judged(
      p: Policy, ixs: seq<C.CompactInstruction>, list: C.Listing, programId: Key, vaultKey: Key, session: Option<Key>,
      bank: Bank, effects: seq<Bank>, slot: u64)
    requires |list.keys| >= 4 && list.keys[3] in bank && |ixs| <= |effects| && Effects(list, bank, effects)
  {
    && Carried(ixs, list, programId, vaultKey, session)
    && MayCallAll(p, ProgramIndices(ixs), list.keys, slot)
    && ControlHeld(list, bank, After(bank, effects, |ixs|), vaultKey)
  }

  ghost predicate ControlHeld(list: C.Listing, before: Bank, after: Bank, vault: Key) {
    && vault in before && vault in after && before.Keys == after.Keys
    && VaultKept(before, after, vault) && TokensHeld(list, before, after, vault)
  }

  /** What it spent, after `n` calls. */
  ghost predicate MeasuredAfter(
      s: Spend, list: C.Listing, bank: Bank, effects: seq<Bank>, vault: Key, n: nat, slot: u64) {
    && n <= |effects| && vault in bank && (forall i :: 0 <= i < n ==> vault in effects[i])
    && IsMeasured(s, list, bank, After(bank, effects, n), vault, VaultTrace(bank, effects, vault, n), slot)
  }

  /** From an authenticated signer on: program lists, the call loop, and everything checked after it. */
  method RunSigned(
    programId: Key, list: C.Listing, ixs: seq<C.CompactInstruction>, authority: array<byte>, vaultKey: Key,
    bank: Bank, effects: seq<Bank>, slot: u64)
    returns (r: Result<seq<C.Cpi>, ExecuteError>, after: Bank, ghost s: Spend)
    requires Listed(list, bank) && |list.keys| <= MAX_TX_ACCOUNTS && |list.keys| >= 4 && list.keys[3] in bank
    requires |ixs| <= C.MAX_INSTRUCTIONS
    requires forall k :: k in list.writable ==> k in list.keys
    requires Effects(list, bank, effects) && PolicySound(authority[..])
    modifies authority
    ensures r.Err? ==> authority[..] == old(authority[..])
    ensures forall i :: 0 <= i < |effects| && vaultKey in bank ==> vaultKey in effects[i]
    ensures r.Ok? ==>
              && vaultKey in bank && after == After(bank, effects, |ixs|)
              && C.IssueAll(ixs, list, C.Context(list.keys[0], vaultKey, old(SessionOf(authority[..])))) ==
                  Some(r.value)
              && Carried(ixs, list, programId, vaultKey, old(SessionOf(authority[..])))
    ensures old(PolicyAt(authority[..]).None?) ==>
              (r.Ok? <==> Carried(ixs, list, programId, vaultKey, old(SessionOf(authority[..]))))
    ensures old(PolicyAt(authority[..]).Some?) ==>
              var p := old(Meaning(authority[..][PolicyAt(authority[..]).value..]));
              if Judged(p, ixs, list, programId, vaultKey, old(SessionOf(authority[..])), bank, effects, slot)
              then && MeasuredAfter(s, list, bank, effects, vaultKey, |ixs|, slot)
                   && (r.Ok? <==> Permitted(p, s))
                   && (r.Err? ==> Some(r.error) == Refusal(Verdict(p, s)))
              else r.Err?
    ensures r.Ok? && old(PolicyAt(authority[..]).None?) ==> authority[..] == old(authority[..])
    ensures r.Ok? && old(PolicyAt(authority[..]).Some?) ==>
              Outcome(list, bank, after, vaultKey, VaultTrace(bank, effects, vaultKey, |ixs|), r.value, slot,
                      old(authority[..]), old(PolicyAt(authority[..]).value), s, authority[..])
  {
    s, after := Spend(0, 0, [], slot), bank;
    forall i | 0 <= i < |effects| && vaultKey in bank
      ensures vaultKey in effects[i]
    {
      ReadOnlyNeverChanges(list, bank, effects, i + 1);
    }
    ghost var data := authority[..];
    var policy := PolicyAt(authority[..]);
    if policy.Some? {
      var barred := EvaluatePreActions(authority[..], policy.value, ProgramIndices(ixs), list.keys, slot);
      if barred.Some? {
        return Err(PolicyRefused(barred.value)), after, s;
      }
    }
    if list.keys[3] != vaultKey {
      return Err(InvalidSeeds), after, s;
    }
    var snaps: seq<Snapshot> := [];
    if policy.Some? {
      snaps := SnapshotVaultTokenAccounts(list, bank, vaultKey);
    }
    var ctx := C.Context(list.keys[0], vaultKey, SessionOf(authority[..]));
    var gross;
    r, after, gross := RunInner(ixs, list, ctx, programId, bank, effects);
    if r.Err? || policy.None? {
      return;
    }
    ProgramsIssued(ixs, list, ctx);
    ReadOnlyNeverChanges(list, bank, effects, |ixs|);
    assert data[policy.value..] == authority[policy.value..];
    var e;
    e, s := Settle(authority, policy.value, snaps, list, bank, after, vaultKey, gross,
                   VaultTrace(bank, effects, vaultKey, |ixs|), slot);
    if e.Some? {
      r := Err(e.value);
    } else {
      assert authority[..][policy.value..] == authority[policy.value..];
    }
  }

  /** The accounts are in place, the instructions parse and the signer may sign. */
  ghost predicate Admitted(
      sha: Sha, programId: Key, list: C.Listing, bytes: seq<byte>, data: seq<byte>, env: Env, bank: Bank, slot: u64) {
    && Preflight(programId, list, bank).None?
    && C.Parse(bytes).Some? && |C.Parse(bytes).value.0| <= C.MAX_INSTRUCTIONS
    && SignerOk(sha, data, programId, list.keys[1], list, bytes, env, slot)
  }

  /** A failed transaction leaves the account as it was. */
  method RollBack(authority: array<byte>, before: seq<byte>)
    requires |before| == authority.Length
    modifies authority
    ensures authority[..] == before
  {
    for i := 0 to authority.Length
      invariant authority[..i] == before[..i]
    {
      authority[i] := before[i];
    }
  }

  /**
   The program's `process`. It accepts exactly when the signer may sign, the calls can be made and,
   under a policy, the programs may be called, control of the vault is kept and the policy permits
   what was spent. Accepted: the signer was one who may sign, a passkey's counter has
   moved, and the inner instructions were the ones asked for. For a signer with a policy, whatever
   those did, control of the vault is unchanged and the policy permits what left it, net over
   every token account the vault had, and is charged with it; without one nothing but a passkey's
   counter moved. Refused: no byte of the account changed.
   */
  method Process(
    sha: Sha, programId: Key, list: C.Listing, bytes: seq<byte>, authority: array<byte>, env: Env, vaultKey: Key,
    bank: Bank, effects: seq<Bank>, slot: u64)
    returns (r: Result<seq<C.Cpi>, ExecuteError>, after: Bank, ghost s: Spend)
    requires Listed(list, bank) && |list.keys| <= MAX_TX_ACCOUNTS
    requires forall k :: k in list.writable ==> k in list.keys
    requires Effects(list, bank, effects) && PolicySound(authority[..])
    modifies authority
    ensures r.Err? ==> authority[..] == old(authority[..])
    ensures r.Ok? ==>
              && C.Parse(bytes).Some? && |C.Parse(bytes).value.0| <= |effects| && Preflight(programId, list, bank).None?
              && old(SignerOk(sha, authority[..], programId, list.keys[1], list, bytes, env, slot))
              && vaultKey in bank && after == After(bank, effects, |C.Parse(bytes).value.0|)
              && C.IssueAll(C.Parse(bytes).value.0, list,
                  C.Context(list.keys[0], vaultKey, old(SessionOf(authority[..]))))
                 == Some(r.value)
              && (forall i :: 0 <= i < |r.value| ==> r.value[i].program != programId)
    ensures r.Ok? ==> old(Admitted(sha, programId, list, bytes, authority[..], env, bank, slot))
    ensures old(Admitted(sha, programId, list, bytes, authority[..], env, bank, slot)) ==>
              var ixs := C.Parse(bytes).value.0;
              if old(PolicyAt(authority[..]).None?)
              then r.Ok? <==> Carried(ixs, list, programId, vaultKey, old(SessionOf(authority[..])))
              else
                var p := old(Meaning(authority[..][PolicyAt(authority[..]).value..]));
                if Judged(p, ixs, list, programId, vaultKey, old(SessionOf(authority[..])), bank, effects, slot)
                then && MeasuredAfter(s, list, bank, effects, vaultKey, |ixs|, slot)
                     && (r.Ok? <==> Permitted(p, s))
                     && (r.Err? ==> Some(r.error) == Refusal(Verdict(p, s)))
                else r.Err?
    ensures r.Ok? && old(PolicyAt(authority[..]).None?) ==> authority[..] == old(Opened(authority[..]))
    ensures r.Ok? && old(PolicyAt(authority[..]).Some?) ==>
              && (forall i :: 0 <= i < |effects| ==> vaultKey in effects[i])
              && PolicyAt(old(Opened(authority[..]))) == old(PolicyAt(authority[..]))
              && PolicySound(old(Opened(authority[..])))
              && Outcome(list, bank, after, vaultKey, VaultTrace(bank, effects, vaultKey, |C.Parse(bytes).value.0|),
                  r.value, slot,
                         old(Opened(authority[..])), old(PolicyAt(authority[..]).value), s, authority[..])
  {
    s, after := Spend(0, 0, [], slot), bank;
    var early := Preflight(programId, list, bank);
    if early.Some? {
      return Err(early.value), after, s;
    }
    var parsed := C.ParseCompactInstructions(bytes);
    if parsed.None? {
      return Err(InvalidInstructionData), after, s;
    }
    C.SerializeInvertsParse(bytes);
    var before := authority[..];
    OpenedKeepsPolicy(before);
    var e := AuthenticateSigner(sha, authority, programId, list.keys[1], list, bytes, env, slot);
    if e.Some? {
      return Err(e.value), after, s;
    }
    r, after, s := RunSigned(programId, list, parsed.value.0, authority, vaultKey, bank, effects, slot);
    if r.Err? {
      RollBack(authority, before);
    }
  }

  /** Each issued instruction targets the program its index names. */
  lemma {:induction false} ProgramsIssued(ixs: seq<C.CompactInstruction>, list: C.Listing, ctx: C.Context)
    requires C.IssueAll(ixs, list, ctx).Some?
    ensures var cs := C.IssueAll(ixs, list, ctx).value;
            |cs| == |ixs| && forall i :: 0 <= i < |ixs| ==>
              ixs[i].programIndex as int < |list.keys| && cs[i].program == list.keys[ixs[i].programIndex]
  {
    if ixs != [] {
      ProgramsIssued(ixs[1..], list, ctx);
    }
  }
}
