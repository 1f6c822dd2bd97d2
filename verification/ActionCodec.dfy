/**
 The SDK's action writer (`sdk/sdk-kit/src/codecs/actions.ts`) against the program's reader:
 what a client asked for is what the engine enforces.
 */
module ActionCodec {
  import opened Bytes
  import opened ActionBuffer
  import opened Limits
  import opened PolicyEngine
  import opened PolicyValidation

  /** An action as a client writes it: no spend counters. */
  datatype SessionRule =
    | LifetimeSol(remaining: u64)
    | RecurringSol(limit: u64, window: u64)
    | MaxSol(max: u64)
    | LifetimeToken(mint: Key, remaining: u64)
    | RecurringToken(mint: Key, limit: u64, window: u64)
    | MaxToken(mint: Key, max: u64)
    | Whitelist(programId: Key)
    | Blacklist(programId: Key)

  datatype SessionAction = SessionAction(rule: SessionRule, expiresAt: Option<u64>)

  /** What the client meant. */
  function Intended(a: SessionAction): Action {
    var rule := match a.rule
      case LifetimeSol(r) => SolCap(r)
      case RecurringSol(l, w) => SolRate(Meter(l, 0, w, 0))
      case MaxSol(m) => SolPerTx(m)
      case LifetimeToken(mint, r) => TokenCap(mint, r)
      case RecurringToken(mint, l, w) => TokenRate(mint, Meter(l, 0, w, 0))
      case MaxToken(mint, m) => TokenPerTx(mint, m)
      case Whitelist(k) => AllowProgram(k)
      case Blacklist(k) => DenyProgram(k);
    Action(rule, ExpiryOf(a))
  }

  function IntendedAll(xs: seq<SessionAction>): (p: Policy)
    ensures |p| == |xs|
    ensures forall i :: 0 <= i < |xs| ==> p[i] == Intended(xs[i])
  {
    seq(|xs|, i requires 0 <= i < |xs| => Intended(xs[i]))
  }

  function ExpiryOf(a: SessionAction): u64 {
    match a.expiresAt case Some(e) => e case None => 0
  }

  function KindOf(r: SessionRule): ActionType {
    match r
    case LifetimeSol(_) => SolLimit
    case RecurringSol(_, _) => SolRecurringLimit
    case MaxSol(_) => SolMaxPerTx
    case LifetimeToken(_, _) => TokenLimit
    case RecurringToken(_, _, _) => TokenRecurringLimit
    case MaxToken(_, _) => TokenMaxPerTx
    case Whitelist(_) => ProgramWhitelist
    case Blacklist(_) => ProgramBlacklist
  }

  function TypeId(t: ActionType): byte {
    match t
    case SolLimit => 1
    case SolRecurringLimit => 2
    case SolMaxPerTx => 3
    case TokenLimit => 4
    case TokenRecurringLimit => 5
    case TokenMaxPerTx => 6
    case ProgramWhitelist => 10
    case ProgramBlacklist => 11
  }

  function MeterBytes(limit: u64, window: u64): seq<byte> {
    ToLe(limit, 8) + ToLe(0, 8) + ToLe(window, 8) + ToLe(0, 8)
  }

  /** `encodeActionData`. */
  function EncodeData(r: SessionRule): (d: seq<byte>)
    ensures |d| == ExpectedSize(KindOf(r))
  {
    match r
    case LifetimeSol(remaining) => ToLe(remaining, 8)
    case RecurringSol(limit, window) => MeterBytes(limit, window)
    case MaxSol(max) => ToLe(max, 8)
    case LifetimeToken(mint, remaining) => mint + ToLe(remaining, 8)
    case RecurringToken(mint, limit, window) => mint + MeterBytes(limit, window)
    case MaxToken(mint, max) => mint + ToLe(max, 8)
    case Whitelist(k) => k
    case Blacklist(k) => k
  }

  function Header(a: SessionAction): (h: seq<byte>)
    ensures |h| == HEADER
  {
    [TypeId(KindOf(a.rule))] + ToLe(|EncodeData(a.rule)|, 2) + ToLe(ExpiryOf(a), 8)
  }

  /** One action on the wire. */
  function Entry(a: SessionAction): (e: seq<byte>)
    ensures |e| == HEADER + ExpectedSize(KindOf(a.rule))
  {
    Header(a) + EncodeData(a.rule)
  }

  function Entries(xs: seq<SessionAction>): (es: seq<seq<byte>>)
    ensures |es| == |xs|
    ensures forall i :: 0 <= i < |xs| ==> es[i] == Entry(xs[i])
  {
    seq(|xs|, i requires 0 <= i < |xs| => Entry(xs[i]))
  }

  /** The buffer: the entries, one after another. */
  function Serialize(xs: seq<SessionAction>): seq<byte> {
    Concat(Entries(xs))
  }

  function Concat(parts: seq<seq<byte>>): seq<byte> {
    if parts == [] then [] else parts[0] + Concat(parts[1..])
  }

  lemma {:induction false} ConcatAppend(a: seq<seq<byte>>, b: seq<seq<byte>>)
    ensures Concat(a + b) == Concat(a) + Concat(b)
  {
    if a == [] {
      assert a + b == b;
    } else {
      assert a + b == [a[0]] + (a[1..] + b);
      calc {
        Concat(a + b);
        a[0] + Concat(a[1..] + b);
        { ConcatAppend(a[1..], b); }
        a[0] + (Concat(a[1..]) + Concat(b));
        Concat(a) + Concat(b);
      }
    }
  }

  lemma ConcatOne(part: seq<byte>)
    ensures Concat([part]) == part
  {
    var parts := [part];
    assert |parts[1..]| == 0;
  }

  lemma ConcatPair(a: seq<byte>, b: seq<byte>)
    ensures Concat([a, b]) == a + b
  {
    ConcatAppend([a], [b]);
    ConcatOne(a);
    ConcatOne(b);
    assert [a, b] == [a] + [b];
  }

  lemma PartsStep(parts: seq<seq<byte>>, header: seq<byte>, data: seq<byte>)
    ensures Concat(parts + [header, data]) == Concat(parts) + (header + data)
  {
    ConcatAppend(parts, [header, data]);
    ConcatPair(header, data);
  }

  lemma ConcatGrows(es: seq<seq<byte>>, i: nat)
    requires i < |es|
    ensures Concat(es[..i + 1]) == Concat(es[..i]) + es[i]
  {
    assert es[..i + 1] == es[..i] + [es[i]];
    ConcatAppend(es[..i], [es[i]]);
    ConcatOne(es[i]);
  }

  /** The header and data of every action, in order, and their total length. */
  method Parts(actions: seq<SessionAction>) returns (parts: seq<seq<byte>>, total: nat)
    ensures Concat(parts) == Serialize(actions) && total == |Concat(parts)|
  {
    parts, total := [], 0;
    ghost var es := Entries(actions);
    for i := 0 to |actions|
      invariant Concat(parts) == Concat(es[..i])
      invariant total == |Concat(parts)|
    {
      var header, data := Header(actions[i]), EncodeData(actions[i].rule);
      ConcatGrows(es, i);
      PartsStep(parts, header, data);
      parts := parts + [header, data];
      total := total + |header| + |data|;
    }
    assert es[..|actions|] == es;
  }

  /** `result.set(part, offset)`. */
  method Set(result: array<byte>, part: seq<byte>, offset: nat)
    requires offset + |part| <= result.Length
    modifies result
    ensures result[..] == Splice(old(result[..]), offset, part)
  {
    for j := 0 to |part|
      invariant forall k :: 0 <= k < result.Length ==>
          result[k] == if offset <= k < offset + j then part[k - offset] else old(result[k])
    {
      result[offset + j] := part[j];
    }
  }

  method Assemble(parts: seq<seq<byte>>, total: nat) returns (result: array<byte>)
    requires total == |Concat(parts)|
    ensures result[..] == Concat(parts)
  {
    result := new byte[total](_ => 0);
    var offset := 0;
    for i := 0 to |parts|
      invariant offset == |Concat(parts[..i])|
      invariant Concat(parts) == Concat(parts[..i]) + Concat(parts[i..])
      invariant result[..offset] == Concat(parts[..i])
    {
      ConcatGrows(parts, i);
      assert parts[i..][1..] == parts[i + 1..];
      ghost var before := result[..offset];
      Set(result, parts[i], offset);
      assert result[..offset + |parts[i]|] == before + parts[i];
      offset := offset + |parts[i]|;
    }
    assert parts[..|parts|] == parts;
    assert result[..] == result[..offset];
  }

  /** `serializeActions`: collect the parts, size the buffer once, then copy them in. */
  method SerializeActions(actions: seq<SessionAction>) returns (result: array<byte>)
    ensures result[..] == Serialize(actions)
  {
    var parts, total := Parts(actions);
    result := Assemble(parts, total);
  }

  // ---------------------------------------------------------------------------
  // Reading back
  // ---------------------------------------------------------------------------

  /** A byte string that is one whole action: a known type, and a length field that is right. */
  ghost predicate IsEntry(e: seq<byte>) {
    HEADER <= |e| && TypeFromU8(e[0]).Some? && ReadU16(e, 1) == |e| - HEADER
  }

  ghost function ViewFor(e: seq<byte>, at: nat): ActionView
    requires IsEntry(e)
  {
    ActionView(TypeFromU8(e[0]).value, ReadU64(e, 3), at + HEADER, |e| - HEADER)
  }

  ghost function ViewsFor(es: seq<seq<byte>>, at: nat): (vs: seq<ActionView>)
    requires forall i :: 0 <= i < |es| ==> IsEntry(es[i])
    ensures |vs| == |es|
  {
    if es == [] then [] else [ViewFor(es[0], at)] + ViewsFor(es[1..], at + |es[0]|)
  }

  lemma EntryReads(pre: seq<byte>, e: seq<byte>, post: seq<byte>)
    requires IsEntry(e)
    ensures ViewAt(pre + e + post, |pre|) == Some(ViewFor(e, |pre|))
  {
    var buf, c := pre + e + post, |pre|;
    assert buf[c] == e[0];
    assert buf[c + 1..c + 3] == e[1..3];
    assert buf[c + 3..c + 11] == e[3..11];
  }

  /** Entries laid end to end parse to their views, up to the cap. */
  lemma {:induction false} ParseEntries(pre: seq<byte>, es: seq<seq<byte>>, n: nat)
    requires n <= MAX_ACTIONS && forall i :: 0 <= i < |es| ==> IsEntry(es[i])
    ensures ParseFrom(pre + Concat(es), |pre|, n)
         == if n + |es| <= MAX_ACTIONS then Ok(ViewsFor(es, |pre|)) else Err(ActionBufferInvalid)
    decreases |es|
  {
    if es != [] {
      EntryReads(pre, es[0], Concat(es[1..]));
      assert pre + Concat(es) == pre + es[0] + Concat(es[1..]);
      if n + 1 <= MAX_ACTIONS {
        ParseEntries(pre + es[0], es[1..], n + 1);
      }
    }
  }

  /** … and each view's data is its entry's data. */
  lemma {:induction false} DataOfEntry(pre: seq<byte>, es: seq<seq<byte>>, i: nat)
    requires i < |es| && forall j :: 0 <= j < |es| ==> IsEntry(es[j])
    ensures var v := ViewsFor(es, |pre|)[i];
            && HEADER <= v.dataOffset && v == ViewFor(es[i], v.dataOffset - HEADER)
            && v.End() <= |pre + Concat(es)|
            && (pre + Concat(es))[v.dataOffset..v.End()] == es[i][HEADER..]
    decreases |es|
  {
    assert pre + Concat(es) == pre + es[0] + Concat(es[1..]);
    if i > 0 {
      DataOfEntry(pre + es[0], es[1..], i - 1);
    }
  }

  ghost function ViewOf(a: SessionAction, at: nat): ActionView {
    ActionView(KindOf(a.rule), ExpiryOf(a), at + HEADER, ExpectedSize(KindOf(a.rule)))
  }

  lemma ActionIsEntry(a: SessionAction)
    ensures IsEntry(Entry(a))
    ensures forall at: nat :: ViewFor(Entry(a), at) == ViewOf(a, at)
    ensures Entry(a)[HEADER..] == EncodeData(a.rule)
  {
    var e, d := Entry(a), EncodeData(a.rule);
    PowersOf256();
    FromToLe(|d|, 2);
    FromToLe(ExpiryOf(a), 8);
    assert e[1..3] == ToLe(|d|, 2);
    assert e[3..11] == ToLe(ExpiryOf(a), 8);
  }

  lemma MeterReads(buf: seq<byte>, o: nat, limit: u64, window: u64)
    requires o + 32 <= |buf| && buf[o..o + 32] == MeterBytes(limit, window)
    ensures MeterAt(buf, o) == Meter(limit, 0, window, 0)
  {
    PowersOf256();
    FromToLe(limit, 8);
    FromToLe(0, 8);
    FromToLe(window, 8);
    var m := buf[o..o + 32];
    SliceOfSlice(buf, o, o + 32, 0, 8);
    SliceOfSlice(buf, o, o + 32, 8, 16);
    SliceOfSlice(buf, o, o + 32, 16, 24);
    SliceOfSlice(buf, o, o + 32, 24, 32);
    assert m[0..8] == ToLe(limit, 8) && m[8..16] == ToLe(0, 8);
    assert m[16..24] == ToLe(window, 8) && m[24..32] == ToLe(0, 8);
  }

  lemma AmountReads(buf: seq<byte>, o: nat, v: u64)
    requires o + 8 <= |buf| && buf[o..o + 8] == ToLe(v, 8)
    ensures ReadU64(buf, o) == v
  {
    PowersOf256();
    FromToLe(v, 8);
  }

  /** A key and what follows it, read from the bytes they were joined in. */
  lemma AfterKey(buf: seq<byte>, o: nat, mint: Key, rest: seq<byte>)
    requires o + 32 + |rest| <= |buf| && buf[o..o + 32 + |rest|] == mint + rest
    ensures buf[o..o + 32] == mint && buf[o + 32..o + 32 + |rest|] == rest
  {
    var d := mint + rest;
    assert d[..32] == mint && d[32..] == rest;
    SliceOfSlice(buf, o, o + 32 + |rest|, 0, 32);
    SliceOfSlice(buf, o, o + 32 + |rest|, 32, 32 + |rest|);
  }

  lemma DataReads(buf: seq<byte>, a: SessionAction, at: nat)
    requires at + HEADER + ExpectedSize(KindOf(a.rule)) <= |buf|
    requires buf[at + HEADER..ViewOf(a, at).End()] == EncodeData(a.rule)
    ensures Decode(buf, ViewOf(a, at)) == Intended(a)
  {
    var o := at + HEADER;
    match a.rule {
      case LifetimeSol(v) => AmountReads(buf, o, v);
      case MaxSol(v) => AmountReads(buf, o, v);
      case RecurringSol(limit, window) => MeterReads(buf, o, limit, window);
      case LifetimeToken(mint, v) =>
        AfterKey(buf, o, mint, ToLe(v, 8));
        AmountReads(buf, o + 32, v);
      case MaxToken(mint, v) =>
        AfterKey(buf, o, mint, ToLe(v, 8));
        AmountReads(buf, o + 32, v);
      case RecurringToken(mint, limit, window) =>
        AfterKey(buf, o, mint, MeterBytes(limit, window));
        MeterReads(buf, o + 32, limit, window);
      case Whitelist(k) =>
      case Blacklist(k) =>
    }
  }

  /**
   The program reads back exactly what the client meant, for every list of at most sixteen
   actions, and refuses every longer one.
   */
  lemma SerializedPolicyMeansWhatWasAsked(xs: seq<SessionAction>)
    ensures Parse(Serialize(xs)).Ok? <==> |xs| <= 16
    ensures |xs| <= 16 ==> Runnable(Serialize(xs)) && Meaning(Serialize(xs)) == IntendedAll(xs)
  {
    var es, buf := Entries(xs), Serialize(xs);
    forall i | 0 <= i < |xs| ensures IsEntry(es[i]) {
      ActionIsEntry(xs[i]);
    }
    ParseEntries([], es, 0);
    assert [] + Concat(es) == buf;
    var vs := ViewsFor(es, 0);
    forall i | 0 <= i < |xs| ensures Sized(buf, vs[i]) && Decode(buf, vs[i]) == Intended(xs[i]) {
      ReadsAsIntended(es, i, xs[i]);
    }
  }

  lemma {:induction false} DataInConcat(es: seq<seq<byte>>, i: nat)
    requires i < |es| && forall j :: 0 <= j < |es| ==> IsEntry(es[j])
    ensures var v := ViewsFor(es, 0)[i];
            && HEADER <= v.dataOffset && v == ViewFor(es[i], v.dataOffset - HEADER)
            && v.End() <= |Concat(es)| && Concat(es)[v.dataOffset..v.End()] == es[i][HEADER..]
  {
    var all := Concat(es);
    assert [] + all == all;
    DataOfEntry([], es, i);
  }

  /** An action's own bytes, wherever they sit, read as it was meant. */
  lemma {:induction false} ActionReads(buf: seq<byte>, e: seq<byte>, a: SessionAction, v: ActionView)
    requires e == Entry(a) && IsEntry(e) && HEADER <= v.dataOffset && v == ViewFor(e, v.dataOffset - HEADER)
    requires v.End() <= |buf| && buf[v.dataOffset..v.End()] == e[HEADER..]
    ensures Sized(buf, v) && Decode(buf, v) == Intended(a)
  {
    ActionIsEntry(a);
    assert v == ViewOf(a, v.dataOffset - HEADER);
    DataReads(buf, a, v.dataOffset - HEADER);
  }

  lemma {:induction false} ReadsAsIntended(es: seq<seq<byte>>, i: nat, a: SessionAction)
    requires i < |es| && (forall j :: 0 <= j < |es| ==> IsEntry(es[j])) && es[i] == Entry(a)
    ensures var v := ViewsFor(es, 0)[i];
            Sized(Concat(es), v) && Decode(Concat(es), v) == Intended(a)
  {
    DataInConcat(es, i);
    ActionReads(Concat(es), es[i], a, ViewsFor(es, 0)[i]);
  }

  /** A client's list passes on-chain validation exactly when it is short enough and grantable as meant. */
  lemma AcceptedIffGrantable(xs: seq<SessionAction>)
    ensures (Runnable(Serialize(xs)) && Grantable(Meaning(Serialize(xs)))) <==>
            (|xs| <= 16 && Grantable(IntendedAll(xs)))
  {
    SerializedPolicyMeansWhatWasAsked(xs);
  }
}
