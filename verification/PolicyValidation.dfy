/**
 Which policies may be granted: `validate_actions_buffer` (`program/src/state/action.rs`), over the
 buffer as the engine reads it.
 */
module PolicyValidation {
  import opened Bytes
  import opened ActionBuffer
  import opened Limits
  import opened PolicyEngine

  /** A recurring limit as it must be granted: nothing spent, no reset yet, a real window. */
  ghost predicate NewMeter(m: Meter) {
    m.spent == 0 && m.lastReset == 0 && m.window > 0
  }

  /** Two actions that would count the same asset the same way twice. */
  ghost predicate Redundant(a: Rule, b: Rule) {
    || (a.SolCap? && b.SolCap?) || (a.SolRate? && b.SolRate?) || (a.SolPerTx? && b.SolPerTx?)
    || (a.TokenCap? && b.TokenCap? && a.mint == b.mint)
    || (a.TokenRate? && b.TokenRate? && a.mint == b.mint)
    || (a.TokenPerTx? && b.TokenPerTx? && a.mint == b.mint)
  }

  ghost predicate MixesLists(p: Policy) {
    && (exists i :: 0 <= i < |p| && p[i].rule.AllowProgram?)
    && (exists i :: 0 <= i < |p| && p[i].rule.DenyProgram?)
  }

  ghost predicate Grantable(p: Policy) {
    && !MixesLists(p)
    && (forall i, j :: 0 <= i < j < |p| ==> !Redundant(p[i].rule, p[j].rule))
    && (forall i :: 0 <= i < |p| && (p[i].rule.SolRate? || p[i].rule.TokenRate?) ==> NewMeter(p[i].rule.meter))
  }

  method HasKind(vs: seq<ActionView>, kind: ActionType) returns (found: bool)
    ensures found <==> exists i :: 0 <= i < |vs| && vs[i].kind == kind
  {
    for i := 0 to |vs|
      invariant forall j :: 0 <= j < i ==> vs[j].kind != kind
    {
      if vs[i].kind == kind {
        return true;
      }
    }
    return false;
  }

  /** At most one action of each SOL kind: the three flags of the source's loop. */
  method SolKindsUnique(vs: seq<ActionView>) returns (ok: bool)
    ensures ok <==> forall i, j :: 0 <= i < j < |vs| && IsSolType(vs[i].kind) ==> vs[i].kind != vs[j].kind
  {
    var hasLimit, hasRecurring, hasMax := false, false, false;
    for i := 0 to |vs|
      invariant hasLimit <==> exists j :: 0 <= j < i && vs[j].kind == SolLimit
      invariant hasRecurring <==> exists j :: 0 <= j < i && vs[j].kind == SolRecurringLimit
      invariant hasMax <==> exists j :: 0 <= j < i && vs[j].kind == SolMaxPerTx
      invariant forall a, b :: 0 <= a < b < i && IsSolType(vs[a].kind) ==> vs[a].kind != vs[b].kind
    {
      match vs[i].kind {
        case SolLimit =>
          if hasLimit {
            return false;
          }
          hasLimit := true;
        case SolRecurringLimit =>
          if hasRecurring {
            return false;
          }
          hasRecurring := true;
        case SolMaxPerTx =>
          if hasMax {
            return false;
          }
          hasMax := true;
        case _ =>
      }
    }
    return true;
  }

  predicate SameMint(buf: seq<byte>, a: ActionView, b: ActionView)
    requires Sized(buf, a) && Sized(buf, b) && IsTokenType(a.kind) && IsTokenType(b.kind)
  {
    KeyAt(buf, a.dataOffset) == KeyAt(buf, b.dataOffset)
  }

  /** No two actions of one token kind name the same mint. */
  method MintsUnique(buf: seq<byte>, vs: seq<ActionView>) returns (ok: bool)
    requires WellSized(buf, vs)
    ensures ok <==>
            forall i, j :: 0 <= i < j < |vs| && IsTokenType(vs[i].kind) && vs[i].kind == vs[j].kind ==>
              !SameMint(buf, vs[i], vs[j])
  {
    for i := 0 to |vs|
      invariant forall a, b :: 0 <= a < i && a < b < |vs| && IsTokenType(vs[a].kind) && vs[a].kind == vs[b].kind ==>
                !SameMint(buf, vs[a], vs[b])
    {
      for j := i + 1 to |vs|
        invariant forall b :: i < b < j && IsTokenType(vs[i].kind) && vs[i].kind == vs[b].kind ==>
                  !SameMint(buf, vs[i], vs[b])
      {
        if IsTokenType(vs[i].kind) && vs[i].kind == vs[j].kind && SameMint(buf, vs[i], vs[j]) {
          return false;
        }
      }
    }
    return true;
  }

  method MetersNew(buf: seq<byte>, vs: seq<ActionView>) returns (ok: bool)
    requires WellSized(buf, vs)
    ensures ok <==> forall i :: 0 <= i < |vs| ==>
              && (vs[i].kind == SolRecurringLimit ==> NewMeter(MeterAt(buf, vs[i].dataOffset)))
              && (vs[i].kind == TokenRecurringLimit ==> NewMeter(MeterAt(buf, vs[i].dataOffset + 32)))
  {
    for i := 0 to |vs|
      invariant forall j :: 0 <= j < i ==>
              && (vs[j].kind == SolRecurringLimit ==> NewMeter(MeterAt(buf, vs[j].dataOffset)))
              && (vs[j].kind == TokenRecurringLimit ==> NewMeter(MeterAt(buf, vs[j].dataOffset + 32)))
    {
      if vs[i].kind == SolRecurringLimit || vs[i].kind == TokenRecurringLimit {
        var o := vs[i].dataOffset + if vs[i].kind == SolRecurringLimit then 0 else 32;
        var spent := ReadU64(buf, o + 8);
        if spent != 0 {
          return false;
        }
        var window := ReadU64(buf, o + 16);
        if window == 0 {
          return false;
        }
        var lastReset := ReadU64(buf, o + 24);
        if lastReset != 0 {
          return false;
        }
      }
    }
    return true;
  }

  /** The checks after sizes: lists, duplicates, initial counters. */
  method ValidateViews(buf: seq<byte>, vs: seq<ActionView>) returns (r: Result<(), BufferError>)
    requires WellSized(buf, vs)
    ensures r.Ok? <==> Grantable(PolicyOf(buf, vs))
    ensures r == Err(ActionWhitelistBlacklistConflict) <==> MixesLists(PolicyOf(buf, vs))
  {
    ViewsShowRules(buf, vs);
    var hasWhitelist := HasKind(vs, ProgramWhitelist);
    var hasBlacklist := HasKind(vs, ProgramBlacklist);
    if hasWhitelist && hasBlacklist {
      return Err(ActionWhitelistBlacklistConflict);
    }
    var solOk := SolKindsUnique(vs);
    var mintsOk := MintsUnique(buf, vs);
    RedundancyInViews(buf, vs);
    if !solOk || !mintsOk {
      return Err(ActionBufferInvalid);
    }
    var metersOk := MetersNew(buf, vs);
    if !metersOk {
      return Err(ActionBufferInvalid);
    }
    return Ok(());
  }

  /** `validate_actions_buffer`: accepts exactly the runnable buffers whose policy is grantable. */
  method ValidateActionsBuffer(buf: seq<byte>) returns (r: Result<(), BufferError>)
    ensures r.Ok? <==> Runnable(buf) && Grantable(Meaning(buf))
    ensures r == Err(ActionWhitelistBlacklistConflict) <==> Runnable(buf) && MixesLists(Meaning(buf))
  {
    if |buf| == 0 {
      return Ok(());
    }
    var parsed := ParseActions(buf);
    if parsed.Err? {
      return Err(ActionBufferInvalid);
    }
    var vs := parsed.value;
    for i := 0 to |vs|
      invariant forall j :: 0 <= j < i ==> vs[j].dataLen == ExpectedSize(vs[j].kind)
    {
      if vs[i].dataLen != ExpectedSize(vs[i].kind) {
        return Err(ActionBufferInvalid);
      }
    }
    assert WellSized(buf, vs) by {
      ParseMeaning(buf, vs);
      assert forall i :: 0 <= i < |vs| ==> HeaderAgrees(buf, vs[i]);
    }
    r := ValidateViews(buf, vs);
  }

  lemma ViewsShowRules(buf: seq<byte>, vs: seq<ActionView>)
    requires WellSized(buf, vs)
    ensures var p := PolicyOf(buf, vs);
            && (forall i :: 0 <= i < |vs| ==> (vs[i].kind == ProgramWhitelist <==> p[i].rule.AllowProgram?))
            && (forall i :: 0 <= i < |vs| ==> (vs[i].kind == ProgramBlacklist <==> p[i].rule.DenyProgram?))
            && (forall i :: 0 <= i < |vs| ==> (p[i].rule.SolRate? <==> vs[i].kind == SolRecurringLimit))
            && (forall i :: 0 <= i < |vs| ==> (p[i].rule.TokenRate? <==> vs[i].kind == TokenRecurringLimit))
            && (forall i :: 0 <= i < |vs| && p[i].rule.SolRate? ==> p[i].rule.meter == MeterAt(buf, vs[i].dataOffset))
            && (forall i :: 0 <= i < |vs| && p[i].rule.TokenRate? ==>
                  p[i].rule.meter == MeterAt(buf, vs[i].dataOffset + 32))
  {
  }

  lemma RedundancyInViews(buf: seq<byte>, vs: seq<ActionView>)
    requires WellSized(buf, vs)
    ensures forall i, j :: 0 <= i < j < |vs| ==>
              (Redundant(PolicyOf(buf, vs)[i].rule, PolicyOf(buf, vs)[j].rule) <==>
               vs[i].kind == vs[j].kind &&
                   (IsSolType(vs[i].kind) || (IsTokenType(vs[i].kind) && SameMint(buf, vs[i], vs[j]))))
  {
  }

  /** What an action occupies: an asset and a way of counting it. Program entries occupy nothing. */
  function SlotOf(r: Rule): Option<(nat, Key)> {
    match r
    case SolCap(_) => Some((0, seq(32, _ => 0)))
    case SolRate(_) => Some((1, seq(32, _ => 0)))
    case SolPerTx(_) => Some((2, seq(32, _ => 0)))
    case TokenCap(mint, _) => Some((3, mint))
    case TokenRate(mint, _) => Some((4, mint))
    case TokenPerTx(mint, _) => Some((5, mint))
    case _ => None
  }

  /**
   A policy may be granted exactly when no two of its actions occupy one slot, its program entries
   are all of one list, and its recurring limits start with nothing spent and a window.
   */
  lemma GrantableExactly(p: Policy)
    ensures Grantable(p) <==>
            && (forall i, j :: 0 <= i < j < |p| ==> SlotOf(p[i].rule).None? || SlotOf(p[i].rule) != SlotOf(p[j].rule))
            && ((forall i :: 0 <= i < |p| ==> !p[i].rule.AllowProgram?) || (forall i :: 0 <= i < |p| ==>
                  !p[i].rule.DenyProgram?))
            && (forall i :: 0 <= i < |p| && (p[i].rule.SolRate? || p[i].rule.TokenRate?) ==>
                  p[i].rule.meter.spent == 0 && p[i].rule.meter.lastReset == 0 && p[i].rule.meter.window != 0)
  {
    forall i, j | 0 <= i < j < |p|
      ensures Redundant(p[i].rule, p[j].rule) <==> SlotOf(p[i].rule).Some? && SlotOf(p[i].rule) == SlotOf(p[j].rule)
    {
    }
  }
}
