/**
 The policy engine of Execute (`program/src/processor/execute/actions.rs`), over the bytes of
 the signer's account. Each check reads the counters where they lie, and only when every check
 has passed are they written back in place.
 */
module PolicyEngine {
  import opened Bytes
  import opened ActionBuffer
  import opened Limits

  /** Every view has the data its type promises and lies inside the buffer. */
  ghost predicate WellSized(buf: seq<byte>, vs: seq<ActionView>) {
    forall i :: 0 <= i < |vs| ==> vs[i].dataLen == ExpectedSize(vs[i].kind) && vs[i].End() <= |buf|
  }

  predicate Sized(buf: seq<byte>, v: ActionView) {
    v.dataLen == ExpectedSize(v.kind) && v.End() <= |buf|
  }

  function KeyAt(buf: seq<byte>, offset: nat): Key
    requires offset + 32 <= |buf|
  {
    buf[offset..offset + 32]
  }

  function MeterAt(buf: seq<byte>, offset: nat): Meter
    requires offset + 32 <= |buf|
  {
    Meter(ReadU64(buf, offset), ReadU64(buf, offset + 8), ReadU64(buf, offset + 16), ReadU64(buf, offset + 24))
  }

  /** The action a view stands for. */
  function Decode(buf: seq<byte>, v: ActionView): Action
    requires Sized(buf, v)
  {
    var o := v.dataOffset;
    var rule := match v.kind
      case SolLimit => SolCap(ReadU64(buf, o))
      case SolRecurringLimit => SolRate(MeterAt(buf, o))
      case SolMaxPerTx => SolPerTx(ReadU64(buf, o))
      case TokenLimit => TokenCap(KeyAt(buf, o), ReadU64(buf, o + 32))
      case TokenRecurringLimit => TokenRate(KeyAt(buf, o), MeterAt(buf, o + 32))
      case TokenMaxPerTx => TokenPerTx(KeyAt(buf, o), ReadU64(buf, o + 32))
      case ProgramWhitelist => AllowProgram(KeyAt(buf, o))
      case ProgramBlacklist => DenyProgram(KeyAt(buf, o));
    Action(rule, v.expiresAt)
  }

  function PolicyOf(buf: seq<byte>, vs: seq<ActionView>): (p: Policy)
    requires WellSized(buf, vs)
    ensures |p| == |vs|
    ensures forall i :: 0 <= i < |vs| ==> p[i] == Decode(buf, vs[i])
  {
    seq(|vs|, i requires 0 <= i < |vs| => Decode(buf, vs[i]))
  }

  /** A policy buffer the engine can run on: it parses, and every action has its full data. */
  ghost predicate Runnable(buf: seq<byte>) {
    Parse(buf).Ok? && WellSized(buf, Parse(buf).value)
  }

  ghost function Meaning(buf: seq<byte>): Policy
    requires Runnable(buf)
  {
    PolicyOf(buf, Parse(buf).value)
  }

  /** The counters an accepted spend may change: `remaining`, or `spent` and `last_reset`. */
  predicate IsCounter(v: ActionView, k: int) {
    var o := v.dataOffset;
    match v.kind
    case SolLimit => o <= k < o + 8
    case SolRecurringLimit => o + 8 <= k < o + 16 || o + 24 <= k < o + 32
    case TokenLimit => o + 32 <= k < o + 40
    case TokenRecurringLimit => o + 40 <= k < o + 48 || o + 56 <= k < o + 64
    case _ => false
  }

  ghost predicate InSomeCounter(vs: seq<ActionView>, k: int) {
    exists i :: 0 <= i < |vs| && IsCounter(vs[i], k)
  }

  lemma SameWithin(a: seq<byte>, b: seq<byte>, lo: nat, hi: nat, i: nat, j: nat)
    requires lo <= i <= j <= hi <= |a| && hi <= |b| && a[lo..hi] == b[lo..hi]
    ensures a[i..j] == b[i..j]
  {
    forall k | 0 <= k < j - i ensures a[i..j][k] == b[i..j][k] {
      assert a[i + k] == a[lo..hi][i + k - lo];
      assert b[i + k] == b[lo..hi][i + k - lo];
    }
  }

  lemma DecodeReadsOnlyItsData(a: seq<byte>, b: seq<byte>, v: ActionView)
    requires Sized(a, v) && Sized(b, v)
    requires a[v.dataOffset..v.End()] == b[v.dataOffset..v.End()]
    ensures Decode(a, v) == Decode(b, v)
  {
    var o, end := v.dataOffset, v.End();
    SameWithin(a, b, o, end, o, o + 8);
    if v.dataLen >= 32 {
      SameWithin(a, b, o, end, o, o + 32);
      SameWithin(a, b, o, end, o + 8, o + 16);
      SameWithin(a, b, o, end, o + 16, o + 24);
      SameWithin(a, b, o, end, o + 24, o + 32);
    }
    if v.dataLen >= 40 {
      SameWithin(a, b, o, end, o + 32, o + 40);
    }
    if v.dataLen >= 64 {
      SameWithin(a, b, o, end, o + 40, o + 48);
      SameWithin(a, b, o, end, o + 48, o + 56);
      SameWithin(a, b, o, end, o + 56, o + 64);
    }
  }

  // ---------------------------------------------------------------------------
  // Before the inner instructions: program lists
  // ---------------------------------------------------------------------------

  /** `names_program`: an unexpired action of `kind` names `program`. */
  method NamesProgram(
      buf: seq<byte>, vs: seq<ActionView>, kind: ActionType, program: Key, slot: u64) returns (named: bool)
    requires WellSized(buf, vs) && (kind == ProgramWhitelist || kind == ProgramBlacklist)
    ensures named <==> Names(buf, vs, kind, program, slot)
  {
    for i := 0 to |vs|
      invariant forall j :: 0 <= j < i ==>
                !(vs[j].kind == kind && !IsExpired(vs[j].expiresAt, slot) && KeyAt(buf, vs[j].dataOffset) == program)
    {
      if vs[i].kind == kind && !IsExpired(vs[i].expiresAt, slot) && KeyAt(buf, vs[i].dataOffset) == program {
        return true;
      }
    }
    return false;
  }

  /**
   Which programs a policy lets an Execute call: not one it currently denies, and, if it ever
   listed any program, only one it currently allows. An expired whitelist denies everything.
   */
  ghost predicate MayCall(p: Policy, program: Key, slot: u64) {
    && ((exists i :: 0 <= i < |p| && p[i].rule.AllowProgram?) ==>
          exists i :: 0 <= i < |p| && p[i].rule == AllowProgram(program) && !p[i].Expired(slot))
    && !exists i :: 0 <= i < |p| && p[i].rule == DenyProgram(program) && !p[i].Expired(slot)
  }

  predicate OnList(r: Rule, deny: bool) {
    if deny then r.DenyProgram? else r.AllowProgram?
  }

  /** The programs an unexpired entry of a list names. */
  ghost function LivePrograms(p: Policy, deny: bool, slot: u64): set<Key> {
    set a | a in p && (a.expiresAt == 0 || slot <= a.expiresAt) && OnList(a.rule, deny) :: a.rule.program
  }

  /** As sets: outside the live blacklist, and inside the live whitelist if there ever was one. */
  lemma CallsExactly(p: Policy, program: Key, slot: u64)
    ensures MayCall(p, program, slot) <==>
            && program !in LivePrograms(p, true, slot)
            && (program in LivePrograms(p, false, slot) || forall a :: a in p ==> !a.rule.AllowProgram?)
  {
    forall i | 0 <= i < |p| ensures p[i] in p {
    }
    if program in LivePrograms(p, true, slot) {
      var a :| a in p && a.rule == DenyProgram(program) && (a.expiresAt == 0 || slot <= a.expiresAt);
      var i :| 0 <= i < |p| && p[i] == a;
    }
    if program in LivePrograms(p, false, slot) {
      var a :| a in p && a.rule == AllowProgram(program) && (a.expiresAt == 0 || slot <= a.expiresAt);
      var i :| 0 <= i < |p| && p[i] == a;
    }
  }

  /** Every program the indices name is there and may be called. */
  ghost predicate MayCallAll(p: Policy, indices: seq<byte>, keys: seq<Key>, slot: u64) {
    forall i :: 0 <= i < |indices| ==> indices[i] < |keys| && MayCall(p, keys[indices[i]], slot)
  }

  /** What is wrong with calling a program, in the order the engine looks. */
  ghost function CallObjection(p: Policy, index: byte, keys: seq<Key>, slot: u64): Option<PolicyError> {
    if index as int >= |keys| then Some(ProgramIndexOutOfRange)
    else if (exists a :: a in p && a.rule.AllowProgram?) && keys[index] !in LivePrograms(p, false, slot)
    then Some(ActionProgramNotWhitelisted)
    else if keys[index] in LivePrograms(p, true, slot) then Some(ActionProgramBlacklisted)
    else None
  }

  /** `evaluate_pre_actions`, over the program indices of the compact instructions. */
  method EvaluatePreActions(data: seq<byte>, loc: nat, indices: seq<byte>, keys: seq<Key>, slot: u64)
    returns (e: Option<PolicyError>)
    requires loc <= |data| && Runnable(data[loc..])
    ensures e.None? <==> |data| == loc || MayCallAll(Meaning(data[loc..]), indices, keys, slot)
    ensures e.Some? ==>
              exists i :: 0 <= i < |indices| && MayCallAll(Meaning(data[loc..]), indices[..i], keys, slot)
                && e == CallObjection(Meaning(data[loc..]), indices[i], keys, slot)
  {
    if |data| == loc {
      return None;
    }
    var buf := data[loc..];
    var parsed := ParseActions(buf);
    var vs := parsed.value;
    ghost var p := PolicyOf(buf, vs);
    var hasWhitelist := HasWhitelist(buf, vs);
    for i := 0 to |indices|
      invariant forall j :: 0 <= j < i ==> indices[j] < |keys| && MayCall(p, keys[indices[j]], slot)
    {
      assert MayCallAll(p, indices[..i], keys, slot);
      e := CheckCall(buf, vs, indices[i], keys, slot, hasWhitelist);
      if e.Some? {
        return;
      }
    }
    return None;
  }

  /** The body of its loop: one instruction's program. */
  method CheckCall(buf: seq<byte>, vs: seq<ActionView>, index: byte, keys: seq<Key>, slot: u64, hasWhitelist: bool)
    returns (e: Option<PolicyError>)
    requires WellSized(buf, vs)
    requires hasWhitelist <==> exists j :: 0 <= j < |vs| && PolicyOf(buf, vs)[j].rule.AllowProgram?
    ensures e == CallObjection(PolicyOf(buf, vs), index, keys, slot)
    ensures e.None? <==> index < |keys| && MayCall(PolicyOf(buf, vs), keys[index], slot)
  {
    if index as int >= |keys| {
      return Some(ProgramIndexOutOfRange);
    }
    var program := keys[index];
    var allowed := NamesProgram(buf, vs, ProgramWhitelist, program, slot);
    var denied := NamesProgram(buf, vs, ProgramBlacklist, program, slot);
    CallMeaning(buf, vs, program, slot, hasWhitelist, allowed, denied);
    ObjectionMeaning(buf, vs, index, keys, slot, hasWhitelist, allowed, denied);
    if hasWhitelist && !allowed {
      return Some(ActionProgramNotWhitelisted);
    }
    if denied {
      return Some(ActionProgramBlacklisted);
    }
    return None;
  }

  method HasWhitelist(buf: seq<byte>, vs: seq<ActionView>) returns (found: bool)
    requires WellSized(buf, vs)
    ensures found <==> exists j :: 0 <= j < |vs| && PolicyOf(buf, vs)[j].rule.AllowProgram?
  {
    ghost var p := PolicyOf(buf, vs);
    found := false;
    for i := 0 to |vs|
      invariant found <==> exists j :: 0 <= j < i && p[j].rule.AllowProgram?
    {
      assert vs[i].kind == ProgramWhitelist <==> p[i].rule.AllowProgram?;
      found := found || vs[i].kind == ProgramWhitelist;
    }
  }

  /** An unexpired entry of `kind` for `program`. */
  ghost predicate Names(buf: seq<byte>, vs: seq<ActionView>, kind: ActionType, program: Key, slot: u64)
    requires WellSized(buf, vs) && (kind == ProgramWhitelist || kind == ProgramBlacklist)
  {
    exists i :: 0 <= i < |vs| && vs[i].kind == kind && !IsExpired(vs[i].expiresAt, slot) &&
        KeyAt(buf, vs[i].dataOffset) == program
  }

  lemma CallMeaning(
      buf: seq<byte>, vs: seq<ActionView>, program: Key, slot: u64, listed: bool, allowed: bool, denied: bool)
    requires WellSized(buf, vs)
    requires listed <==> exists j :: 0 <= j < |vs| && PolicyOf(buf, vs)[j].rule.AllowProgram?
    requires allowed <==> Names(buf, vs, ProgramWhitelist, program, slot)
    requires denied <==> Names(buf, vs, ProgramBlacklist, program, slot)
    ensures MayCall(PolicyOf(buf, vs), program, slot) <==> !(listed && !allowed) && !denied
  {
    ListMeaning(buf, vs, program, slot);
  }

  /** An unexpired entry, in the bytes and as a set. */
  lemma NamesIsLive(buf: seq<byte>, vs: seq<ActionView>, program: Key, slot: u64)
    requires WellSized(buf, vs)
    ensures Names(buf, vs, ProgramWhitelist, program, slot) <==> program in LivePrograms(PolicyOf(buf, vs), false, slot)
    ensures Names(buf, vs, ProgramBlacklist, program, slot) <==> program in LivePrograms(PolicyOf(buf, vs), true, slot)
  {
    var p := PolicyOf(buf, vs);
    ListMeaning(buf, vs, program, slot);
    forall i | 0 <= i < |p| ensures p[i] in p {
    }
    if program in LivePrograms(p, false, slot) {
      var a :| a in p && a.rule == AllowProgram(program) && (a.expiresAt == 0 || slot <= a.expiresAt);
      var i :| 0 <= i < |p| && p[i] == a;
    }
    if program in LivePrograms(p, true, slot) {
      var a :| a in p && a.rule == DenyProgram(program) && (a.expiresAt == 0 || slot <= a.expiresAt);
      var i :| 0 <= i < |p| && p[i] == a;
    }
  }

  lemma ObjectionMeaning(
      buf: seq<byte>, vs: seq<ActionView>, index: byte, keys: seq<Key>, slot: u64, listed: bool, allowed: bool,
      denied: bool)
    requires WellSized(buf, vs) && index < |keys|
    requires listed <==> exists j :: 0 <= j < |vs| && PolicyOf(buf, vs)[j].rule.AllowProgram?
    requires allowed <==> Names(buf, vs, ProgramWhitelist, keys[index], slot)
    requires denied <==> Names(buf, vs, ProgramBlacklist, keys[index], slot)
    ensures CallObjection(PolicyOf(buf, vs), index, keys, slot)
         == if listed && !allowed then Some(ActionProgramNotWhitelisted)
            else if denied then Some(ActionProgramBlacklisted) else None
  {
    var p := PolicyOf(buf, vs);
    NamesIsLive(buf, vs, keys[index], slot);
    if listed {
      var j :| 0 <= j < |vs| && p[j].rule.AllowProgram?;
      assert p[j] in p;
    }
  }

  lemma ListMeaning(buf: seq<byte>, vs: seq<ActionView>, program: Key, slot: u64)
    requires WellSized(buf, vs)
    ensures var p := PolicyOf(buf, vs);
            && (forall i :: 0 <= i < |vs| ==>
                (p[i].rule == AllowProgram(program) <==>
                    vs[i].kind == ProgramWhitelist && KeyAt(buf, vs[i].dataOffset) == program))
            && (forall i :: 0 <= i < |vs| ==>
                (p[i].rule == DenyProgram(program) <==>
                    vs[i].kind == ProgramBlacklist && KeyAt(buf, vs[i].dataOffset) == program))
            && (forall i :: 0 <= i < |vs| ==> p[i].Expired(slot) == IsExpired(vs[i].expiresAt, slot))
  {
  }

  // ---------------------------------------------------------------------------
  // After them: three read-only phases
  // ---------------------------------------------------------------------------

  /** Phase 1: SOL limits. An expired limit is an exhausted one. */
  method CheckSol(buf: seq<byte>, vs: seq<ActionView>, s: Spend) returns (e: Option<PolicyError>)
    requires WellSized(buf, vs)
    ensures e == SolVerdict(PolicyOf(buf, vs), s)
  {
    ghost var p := PolicyOf(buf, vs);
    assert p[0..] == p;
    for i := 0 to |vs|
      invariant SolVerdict(p, s) == SolVerdict(p[i..], s)
    {
      var v := vs[i];
      var o := v.dataOffset;
      var expired := IsExpired(v.expiresAt, s.slot);
      assert p[i..][0] == Decode(buf, v) && p[i..][1..] == p[i + 1..];
      match v.kind {
        case SolMaxPerTx =>
          if s.gross > 0 {
            if expired {
              return Some(ActionSolMaxPerTxExceeded);
            }
            var max := ReadU64(buf, o);
            if s.gross > max {
              return Some(ActionSolMaxPerTxExceeded);
            }
          }
        case SolLimit =>
          if s.sol > 0 {
            if expired {
              return Some(ActionSolLimitExceeded);
            }
            var remaining := ReadU64(buf, o);
            if s.sol > remaining {
              return Some(ActionSolLimitExceeded);
            }
          }
        case SolRecurringLimit =>
          if s.sol > 0 {
            if expired {
              return Some(ActionSolRecurringLimitExceeded);
            }
            var fits := MeterHasRoom(buf, o, s.sol, s.slot);
            if !fits {
              return Some(ActionSolRecurringLimitExceeded);
            }
          }
        case _ =>
      }
    }
    return None;
  }

  /** The recurring check: a new period must fit the whole limit, an open one what is left of it. */
  method MeterHasRoom(buf: seq<byte>, o: nat, amount: u64, slot: u64) returns (fits: bool)
    requires o + 32 <= |buf|
    ensures fits == MeterAt(buf, o).Admits(amount, slot)
  {
    var limit := ReadU64(buf, o);
    var spent := ReadU64(buf, o + 8);
    var window := ReadU64(buf, o + 16);
    var lastReset := ReadU64(buf, o + 24);
    var effective := spent;
    if SatSub(slot, lastReset) > window {
      if amount > limit {
        return false;
      }
      effective := 0;
    }
    fits := SatAdd(effective, amount) <= limit;
  }

  /** `mint_outflow`: the first flow of the mint, zero when the vault held none of it. */
  method MintOutflow(flows: seq<MintFlow>, mint: Key) returns (out: u64)
    ensures out == FirstOutflow(flows, mint)
  {
    assert flows[0..] == flows;
    for i := 0 to |flows|
      invariant FirstOutflow(flows, mint) == FirstOutflow(flows[i..], mint)
    {
      assert flows[i..][1..] == flows[i + 1..];
      if flows[i].mint == mint {
        return flows[i].Outflow();
      }
    }
    return 0;
  }

  /** One token limit, on its own mint. An expired limit is an exhausted one. */
  method CheckToken(buf: seq<byte>, v: ActionView, s: Spend) returns (e: Option<PolicyError>)
    requires Sized(buf, v)
    ensures e == TokenObjection(Decode(buf, v), s)
  {
    if !IsTokenType(v.kind) {
      return None;
    }
    var o := v.dataOffset;
    var out := MintOutflow(s.flows, KeyAt(buf, o));
    if out == 0 {
      return None;
    }
    var expired := IsExpired(v.expiresAt, s.slot);
    match v.kind {
      case TokenMaxPerTx =>
        e := if expired || out > ReadU64(buf, o + 32) then Some(ActionTokenMaxPerTxExceeded) else None;
      case TokenLimit =>
        e := if expired || out > ReadU64(buf, o + 32) then Some(ActionTokenLimitExceeded) else None;
      case TokenRecurringLimit =>
        var fits := MeterHasRoom(buf, o + 32, out, s.slot);
        e := if expired || !fits then Some(ActionTokenRecurringLimitExceeded) else None;
    }
  }

  /** Phase 1b: token limits. */
  method CheckTokens(buf: seq<byte>, vs: seq<ActionView>, s: Spend) returns (e: Option<PolicyError>)
    requires WellSized(buf, vs)
    ensures e == TokenVerdict(PolicyOf(buf, vs), s)
  {
    ghost var p := PolicyOf(buf, vs);
    assert p[0..] == p;
    for i := 0 to |vs|
      invariant TokenVerdict(p, s) == TokenVerdict(p[i..], s)
    {
      assert p[i..][0] == Decode(buf, vs[i]) && p[i..][1..] == p[i + 1..];
      e := CheckToken(buf, vs[i], s);
      if e.Some? {
        return;
      }
    }
    return None;
  }

  /** Whether any SOL limit is there. */
  method AnySolLimit(buf: seq<byte>, vs: seq<ActionView>) returns (named: bool)
    requires WellSized(buf, vs)
    ensures named <==> Limits.NamesSol(PolicyOf(buf, vs))
  {
    ghost var p := PolicyOf(buf, vs);
    named := false;
    for i := 0 to |vs|
      invariant named <==> exists j :: 0 <= j < i && p[j].rule.NamesSol()
    {
      assert IsSolType(vs[i].kind) <==> p[i].rule.NamesSol();
      named := named || IsSolType(vs[i].kind);
    }
  }

  /** `names_mint`. */
  method AnyLimitOn(buf: seq<byte>, vs: seq<ActionView>, mint: Key) returns (named: bool)
    requires WellSized(buf, vs)
    ensures named <==> Limits.NamesMint(PolicyOf(buf, vs), mint)
  {
    ghost var p := PolicyOf(buf, vs);
    named := false;
    for i := 0 to |vs|
      invariant named <==> exists j :: 0 <= j < i && p[j].rule.NamesMint(mint)
    {
      assert p[i].rule.NamesMint(mint) <==> IsTokenType(vs[i].kind) && KeyAt(buf, vs[i].dataOffset) == mint;
      named := named || (IsTokenType(vs[i].kind) && KeyAt(buf, vs[i].dataOffset) == mint);
    }
  }

  /** Phase 1c: an asset no action names may not leave. */
  method CheckUnlisted(buf: seq<byte>, vs: seq<ActionView>, s: Spend) returns (e: Option<PolicyError>)
    requires WellSized(buf, vs)
    ensures e == UnlistedVerdict(PolicyOf(buf, vs), s)
  {
    var sol := AnySolLimit(buf, vs);
    if !sol && s.sol > 0 {
      return Some(ActionUnlistedSolOutflow);
    }
    for i := 0 to |s.flows|
      invariant forall j :: 0 <= j < i ==> !UnlistedOut(PolicyOf(buf, vs), s.flows[j])
    {
      var named := AnyLimitOn(buf, vs, s.flows[i].mint);
      if s.flows[i].Outflow() > 0 && !named {
        assert UnlistedOut(PolicyOf(buf, vs), s.flows[i]);
        return Some(ActionUnlistedTokenOutflow);
      }
    }
    return None;
  }

  // ---------------------------------------------------------------------------
  // Then the writes
  // ---------------------------------------------------------------------------

  /** What one action's write may do to the account: its own counters, and nothing else. */
  twostate predicate OnlyCountersOf(data: array<byte>, loc: nat, v: ActionView)
    reads data
  {
    forall k :: 0 <= k < data.Length && !IsCounter(v, k - loc) ==> data[k] == old(data[k])
  }

  /** Restart the period at this spend, or add to the open one. */
  method ChargeMeter(data: array<byte>, o: nat, amount: u64, slot: u64)
    requires o + 32 <= data.Length
    modifies data
    ensures MeterAt(data[..], o) == old(MeterAt(data[..], o)).Charge(amount, slot)
    ensures forall k :: 0 <= k < data.Length && !(o + 8 <= k < o + 16 || o + 24 <= k < o + 32) ==>
              data[k] == old(data[k])
  {
    ghost var before := data[..];
    var spent := ReadU64(data[..], o + 8);
    var window := ReadU64(data[..], o + 16);
    var lastReset := ReadU64(data[..], o + 24);
    var newSpent, newLastReset := SatAdd(spent, amount), lastReset;
    if SatSub(slot, lastReset) > window {
      newSpent, newLastReset := amount, slot;
    }
    StoreU64(data, o + 8, newSpent);
    ghost var middle := data[..];
    ReadAfterWrite(before, o + 8, newSpent);
    StoreU64(data, o + 24, newLastReset);
    ReadAfterWrite(middle, o + 24, newLastReset);
    ghost var after := data[..];
    assert after[o..o + 8] == before[o..o + 8];
    assert after[o + 16..o + 24] == before[o + 16..o + 24];
    assert after[o + 8..o + 16] == middle[o + 8..o + 16];
  }

  method ChargeRemaining(data: array<byte>, o: nat, amount: u64)
    requires o + 8 <= data.Length
    modifies data
    ensures ReadU64(data[..], o) == SatSub(old(ReadU64(data[..], o)), amount)
    ensures forall k :: 0 <= k < data.Length && !(o <= k < o + 8) ==> data[k] == old(data[k])
  {
    ghost var before := data[..];
    var remaining := ReadU64(data[..], o);
    StoreU64(data, o, SatSub(remaining, amount));
    ReadAfterWrite(before, o, SatSub(remaining, amount));
  }

  lemma ShiftRead(data: seq<byte>, loc: nat, o: nat)
    requires loc + o + 8 <= |data|
    ensures ReadU64(data, loc + o) == ReadU64(data[loc..], o)
  {
    assert data[loc + o..loc + o + 8] == data[loc..][o..o + 8];
  }

  lemma ShiftMeter(data: seq<byte>, loc: nat, o: nat)
    requires loc + o + 32 <= |data|
    ensures MeterAt(data, loc + o) == MeterAt(data[loc..], o)
  {
    ShiftRead(data, loc, o);
    ShiftRead(data, loc, o + 8);
    ShiftRead(data, loc, o + 16);
    ShiftRead(data, loc, o + 24);
  }

  method CommitSol(data: array<byte>, loc: nat, v: ActionView, s: Spend)
    requires loc <= data.Length && Sized(data[loc..], v)
    requires !IsExpired(v.expiresAt, s.slot) && s.sol > 0 && (v.kind == SolLimit || v.kind == SolRecurringLimit)
    modifies data
    ensures Decode(data[loc..], v) == Charge(old(Decode(data[loc..], v)), s)
    ensures OnlyCountersOf(data, loc, v)
  {
    var o := v.dataOffset;
    assert data[..][loc..] == data[loc..];
    if v.kind == SolLimit {
      ShiftRead(data[..], loc, o);
      ChargeRemaining(data, loc + o, s.sol);
      ShiftRead(data[..], loc, o);
    } else {
      ShiftMeter(data[..], loc, o);
      ChargeMeter(data, loc + o, s.sol, s.slot);
      ShiftMeter(data[..], loc, o);
    }
    assert data[..][loc..] == data[loc..];
  }

  method CommitTokenLimit(data: array<byte>, loc: nat, v: ActionView, out: u64)
    requires loc <= data.Length && Sized(data[loc..], v) && v.kind == TokenLimit
    modifies data
    ensures Decode(data[loc..], v) == old(Decode(data[loc..], v)).(rule :=
              TokenCap(old(KeyAt(data[loc..], v.dataOffset)),
                  SatSub(old(ReadU64(data[loc..], v.dataOffset + 32)), out)))
    ensures OnlyCountersOf(data, loc, v)
  {
    var o := v.dataOffset;
    ghost var before := data[..];
    ShiftRead(before, loc, o + 32);
    assert before[loc..] == data[loc..];
    ChargeRemaining(data, loc + o + 32, out);
    ShiftRead(data[..], loc, o + 32);
    KeyKept(before, data[..], loc, o);
    assert data[..][loc..] == data[loc..];
  }

  method CommitTokenRecurring(data: array<byte>, loc: nat, v: ActionView, out: u64, slot: u64)
    requires loc <= data.Length && Sized(data[loc..], v) && v.kind == TokenRecurringLimit
    modifies data
    ensures Decode(data[loc..], v) == old(Decode(data[loc..], v)).(rule :=
              TokenRate(old(KeyAt(data[loc..], v.dataOffset)),
                  old(MeterAt(data[loc..], v.dataOffset + 32)).Charge(out, slot)))
    ensures OnlyCountersOf(data, loc, v)
  {
    var o := v.dataOffset;
    ghost var before := data[..];
    ShiftMeter(before, loc, o + 32);
    assert before[loc..] == data[loc..];
    ChargeMeter(data, loc + o + 32, out, slot);
    ShiftMeter(data[..], loc, o + 32);
    KeyKept(before, data[..], loc, o);
    assert data[..][loc..] == data[loc..];
  }

  lemma KeyKept(before: seq<byte>, after: seq<byte>, loc: nat, o: nat)
    requires |after| == |before| && loc + o + 32 <= |before|
    requires forall k :: loc + o <= k < loc + o + 32 ==> after[k] == before[k]
    ensures KeyAt(after[loc..], o) == KeyAt(before[loc..], o)
  {
    var a, b := KeyAt(after[loc..], o), KeyAt(before[loc..], o);
    forall k | 0 <= k < 32 ensures a[k] == b[k] {
      assert after[loc + o + k] == before[loc + o + k];
    }
  }

  method CommitToken(data: array<byte>, loc: nat, v: ActionView, s: Spend)
    requires loc <= data.Length && Sized(data[loc..], v)
    requires !IsExpired(v.expiresAt, s.slot) && (v.kind == TokenLimit || v.kind == TokenRecurringLimit)
    modifies data
    ensures Decode(data[loc..], v) == Charge(old(Decode(data[loc..], v)), s)
    ensures OnlyCountersOf(data, loc, v)
  {
    var out := MintOutflow(s.flows, KeyAt(data[loc..], v.dataOffset));
    if out > 0 {
      if v.kind == TokenLimit {
        CommitTokenLimit(data, loc, v, out);
      } else {
        CommitTokenRecurring(data, loc, v, out, s.slot);
      }
    }
  }

  /** The write-back of one action. */
  method CommitAction(data: array<byte>, loc: nat, v: ActionView, s: Spend)
    requires loc <= data.Length && Sized(data[loc..], v)
    modifies data
    ensures Decode(data[loc..], v) == Charge(old(Decode(data[loc..], v)), s)
    ensures OnlyCountersOf(data, loc, v)
  {
    if IsExpired(v.expiresAt, s.slot) {
      return;
    }
    match v.kind {
      case SolLimit | SolRecurringLimit =>
        if s.sol > 0 {
          CommitSol(data, loc, v, s);
        }
      case TokenLimit | TokenRecurringLimit =>
        CommitToken(data, loc, v, s);
      case _ =>
    }
  }

  /** Writing one view's counters leaves every other action as it was. */
  lemma OthersUntouched(middle: seq<byte>, after: seq<byte>, vs: seq<ActionView>, i: nat, j: nat)
    requires |after| == |middle| && WellSized(middle, vs) && Tiles(vs, 0, |middle|)
    requires i < |vs| && j < |vs| && i != j
    requires forall k :: 0 <= k < |middle| && !IsCounter(vs[i], k) ==> after[k] == middle[k]
    ensures Decode(after, vs[j]) == Decode(middle, vs[j])
  {
    Apart(vs, |middle|, i, j);
    var v := vs[j];
    forall k | 0 <= k < v.dataLen ensures after[v.dataOffset..v.End()][k] == middle[v.dataOffset..v.End()][k] {
      assert after[v.dataOffset + k] == middle[v.dataOffset + k];
    }
    DecodeReadsOnlyItsData(after, middle, v);
  }

  lemma CountersGrow(vs: seq<ActionView>, i: nat, k: int)
    requires i < |vs| && !InSomeCounter(vs[..i + 1], k)
    ensures !InSomeCounter(vs[..i], k) && !IsCounter(vs[i], k)
  {
    assert vs[..i + 1][i] == vs[i];
    assert forall j :: 0 <= j < i ==> vs[..i + 1][j] == vs[..i][j];
  }

  /** The first `i` actions are charged, the rest are as they were, and only counters moved. */
  ghost predicate Progress(buf: seq<byte>, now: seq<byte>, vs: seq<ActionView>, s: Spend, i: nat)
    requires i <= |vs| && WellSized(buf, vs)
  {
    && |now| == |buf|
    && (forall j :: 0 <= j < i ==> Decode(now, vs[j]) == Charge(Decode(buf, vs[j]), s))
    && (forall j :: i <= j < |vs| ==> Decode(now, vs[j]) == Decode(buf, vs[j]))
    && (forall k :: 0 <= k < |buf| && !InSomeCounter(vs[..i], k) ==> now[k] == buf[k])
  }

  lemma ProgressStep(buf: seq<byte>, middle: seq<byte>, after: seq<byte>, vs: seq<ActionView>, s: Spend, i: nat)
    requires i < |vs| && WellSized(buf, vs) && Tiles(vs, 0, |buf|)
    requires Progress(buf, middle, vs, s, i) && |after| == |middle|
    requires Decode(after, vs[i]) == Charge(Decode(middle, vs[i]), s)
    requires forall k :: 0 <= k < |middle| && !IsCounter(vs[i], k) ==> after[k] == middle[k]
    ensures Progress(buf, after, vs, s, i + 1)
  {
    forall j | 0 <= j < |vs| && j != i ensures Decode(after, vs[j]) == Decode(middle, vs[j]) {
      OthersUntouched(middle, after, vs, i, j);
    }
    forall k | 0 <= k < |buf| && !InSomeCounter(vs[..i + 1], k) ensures after[k] == buf[k] {
      CountersGrow(vs, i, k);
    }
  }

  /** Phase 2: every action is charged once, through views that share no byte. */
  method Commit(data: array<byte>, loc: nat, vs: seq<ActionView>, s: Spend)
    requires loc <= data.Length && WellSized(data[loc..], vs) && Tiles(vs, 0, data.Length - loc)
    modifies data
    ensures PolicyOf(data[loc..], vs) == ChargeAll(old(PolicyOf(data[loc..], vs)), s)
    ensures forall k :: 0 <= k < data.Length && !InSomeCounter(vs, k - loc) ==> data[k] == old(data[k])
  {
    ghost var buf := data[loc..];
    for i := 0 to |vs|
      invariant Progress(buf, data[loc..], vs, s, i)
      invariant data[..loc] == old(data[..loc])
    {
      ghost var middle := data[loc..];
      label before:
      CommitAction(data, loc, vs[i], s);
      forall k | 0 <= k < |middle| && !IsCounter(vs[i], k) ensures data[loc..][k] == middle[k] {
        assert data[loc + k] == old@before(data[loc + k]);
      }
      forall k | 0 <= k < loc ensures data[k] == old@before(data[k]) {
        assert !IsCounter(vs[i], k - loc);
      }
      ProgressStep(buf, middle, data[loc..], vs, s, i);
    }
    assert vs[..|vs|] == vs;
    forall k | 0 <= k < data.Length && !InSomeCounter(vs, k - loc) ensures data[k] == old(data[k]) {
      if k < loc {
        assert data[..loc][k] == old(data[..loc])[k];
      } else {
        assert data[loc..][k - loc] == buf[k - loc];
      }
    }
  }

  /** No counter of one view falls in the data of another. */
  lemma Apart(vs: seq<ActionView>, hi: nat, i: nat, j: nat)
    requires Tiles(vs, 0, hi) && i < |vs| && j < |vs| && i != j
    requires vs[i].dataLen == ExpectedSize(vs[i].kind)
    ensures forall k :: IsCounter(vs[i], k) ==> !(vs[j].dataOffset <= k < vs[j].End())
  {
    if i < j {
      TilesDisjoint(vs, 0, hi, i, j);
    } else {
      TilesDisjoint(vs, 0, hi, j, i);
    }
  }

  /** No counter falls in a header. */
  lemma CountersAreNotHeaders(vs: seq<ActionView>, hi: nat, i: nat, k: int)
    requires Tiles(vs, 0, hi) && i < |vs|
    requires forall j :: 0 <= j < |vs| ==> vs[j].dataLen == ExpectedSize(vs[j].kind)
    requires vs[i].dataOffset - HEADER <= k < vs[i].dataOffset
    ensures !InSomeCounter(vs, k)
  {
    forall j | 0 <= j < |vs| ensures !IsCounter(vs[j], k) {
      if j < i {
        TilesDisjoint(vs, 0, hi, j, i);
      } else if i < j {
        TilesDisjoint(vs, 0, hi, i, j);
      }
    }
  }

  /**
   `evaluate_post_actions`. Refused: no byte changes and the error is the first objection.
   Accepted: only counters of the (disjoint) actions change, the buffer still parses to the same
   views, and its meaning is the old policy charged with this spend. An account without a policy
   behind `loc` is let through untouched.
   */
  method EvaluatePostActions(data: array<byte>, loc: nat, lamportsBefore: u64, lamportsAfter: u64, gross: u64,
                             flows: seq<MintFlow>, slot: u64)
    returns (e: Option<PolicyError>)
    requires loc <= data.Length && Runnable(data[loc..])
    modifies data
    ensures data.Length == loc ==> e.None? && data[..] == old(data[..])
    ensures data.Length > loc ==>
            var s := Spend(SatSub(lamportsBefore, lamportsAfter), gross, flows, slot);
            && e == Verdict(old(Meaning(data[loc..])), s)
            && Runnable(data[loc..])
            && Parse(data[loc..]) == old(Parse(data[loc..]))
            && Meaning(data[loc..]) == Next(old(Meaning(data[loc..])), s)
    ensures e.Some? ==> data[..] == old(data[..])
    ensures SameButCounters(old(data[..]), data[..], loc)
  {
    if data.Length == loc {
      return None;
    }
    var s := Spend(SatSub(lamportsBefore, lamportsAfter), gross, flows, slot);
    var buf := data[loc..];
    var parsed := ParseActions(buf);
    var vs := parsed.value;
    e := CheckAll(buf, vs, s);
    if e.Some? {
      return;
    }
    ParseMeaning(buf, vs);
    Commit(data, loc, vs, s);
    forall i, k | 0 <= i < |vs| && vs[i].dataOffset - HEADER <= k < vs[i].dataOffset && 0 <= k < |buf|
      ensures buf[k] == data[loc..][k]
    {
      CountersAreNotHeaders(vs, |buf|, i, k);
      assert data[loc + k] == old(data[loc + k]);
    }
    ParseIgnoresData(buf, data[loc..], vs);
  }

  /** The three read-only phases, in order. */
  method CheckAll(buf: seq<byte>, vs: seq<ActionView>, s: Spend) returns (e: Option<PolicyError>)
    requires WellSized(buf, vs)
    ensures e == Verdict(PolicyOf(buf, vs), s)
  {
    e := CheckSol(buf, vs, s);
    if e.None? {
      e := CheckTokens(buf, vs, s);
    }
    if e.None? {
      e := CheckUnlisted(buf, vs, s);
    }
  }

  /** Nothing but spend counters of the policy behind `loc` differs. */
  ghost predicate SameButCounters(a: seq<byte>, b: seq<byte>, loc: nat)
    requires loc <= |a| && Runnable(a[loc..])
  {
    && |a| == |b|
    && forall k :: 0 <= k < |a| && !InSomeCounter(Parse(a[loc..]).value, k - loc) ==> a[k] == b[k]
  }
}
