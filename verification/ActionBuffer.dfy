/**
 The flat policy buffer (`program/src/state/action.rs`): an 11-byte header per action,
 `[type: u8][data_len: u16 LE][expires_at: u64 LE]`, followed by `data_len` bytes.
 */
module ActionBuffer {
  import opened Bytes

  const HEADER: nat := 11
  const MAX_ACTIONS: nat := 16

  datatype ActionType =
    | SolLimit | SolRecurringLimit | SolMaxPerTx
    | TokenLimit | TokenRecurringLimit | TokenMaxPerTx
    | ProgramWhitelist | ProgramBlacklist

  datatype BufferError = ActionBufferInvalid | ActionWhitelistBlacklistConflict

  function TypeFromU8(v: byte): Option<ActionType> {
    if v == 1 then Some(SolLimit)
    else if v == 2 then Some(SolRecurringLimit)
    else if v == 3 then Some(SolMaxPerTx)
    else if v == 4 then Some(TokenLimit)
    else if v == 5 then Some(TokenRecurringLimit)
    else if v == 6 then Some(TokenMaxPerTx)
    else if v == 10 then Some(ProgramWhitelist)
    else if v == 11 then Some(ProgramBlacklist)
    else None
  }

  function ExpectedSize(t: ActionType): nat {
    match t
    case SolLimit => 8
    case SolRecurringLimit => 32
    case SolMaxPerTx => 8
    case TokenLimit => 40
    case TokenRecurringLimit => 64
    case TokenMaxPerTx => 40
    case ProgramWhitelist => 32
    case ProgramBlacklist => 32
  }

  predicate IsTokenType(t: ActionType) {
    t == TokenLimit || t == TokenRecurringLimit || t == TokenMaxPerTx
  }

  predicate IsSolType(t: ActionType) {
    t == SolLimit || t == SolRecurringLimit || t == SolMaxPerTx
  }

  /** A parsed action: offsets into the buffer, no borrowed bytes. */
  datatype ActionView = ActionView(kind: ActionType, expiresAt: u64, dataOffset: nat, dataLen: nat) {
    function End(): nat { dataOffset + dataLen }
  }

  type ParseResult = Result<seq<ActionView>, BufferError>

  // ---------------------------------------------------------------------------
  // Parsing, from a cursor with `n` actions already pushed
  // ---------------------------------------------------------------------------

  /** The view whose header sits at `cursor`, when the header is whole, known and its data fits. */
  function ViewAt(buf: seq<byte>, cursor: nat): Option<ActionView> {
    if cursor + HEADER > |buf| || TypeFromU8(buf[cursor]).None? then None
    else
      var len := ReadU16(buf, cursor + 1);
      if cursor + HEADER + len > |buf| then None
      else Some(ActionView(TypeFromU8(buf[cursor]).value, ReadU64(buf, cursor + 3), cursor + HEADER, len))
  }

  function ParseFrom(buf: seq<byte>, cursor: nat, n: nat): ParseResult
    decreases |buf| - cursor
  {
    if cursor >= |buf| then Ok([])
    else match ViewAt(buf, cursor)
      case None => Err(ActionBufferInvalid)
      case Some(v) =>
        if n + 1 > MAX_ACTIONS then Err(ActionBufferInvalid)
        else match ParseFrom(buf, v.End(), n + 1)
          case Err(e) => Err(e)
          case Ok(rest) => Ok([v] + rest)
  }

  function Parse(buf: seq<byte>): ParseResult {
    ParseFrom(buf, 0, 0)
  }

  /** `parse_actions`: the cursor loop. */
  method ParseActions(buf: seq<byte>) returns (r: ParseResult)
    ensures r == Parse(buf)
  {
    var actions: seq<ActionView> := [];
    var cursor := 0;
    if Parse(buf).Ok? {
      assert [] + Parse(buf).value == Parse(buf).value;
    }
    while cursor < |buf|
      invariant cursor <= |buf|
      invariant |actions| <= MAX_ACTIONS
      invariant Parse(buf) == match ParseFrom(buf, cursor, |actions|)
                              case Err(e) => Err(e)
                              case Ok(rest) => Ok(actions + rest)
    {
      if cursor + HEADER > |buf| {
        return Err(ActionBufferInvalid);
      }
      var kind := TypeFromU8(buf[cursor]);
      if kind.None? {
        return Err(ActionBufferInvalid);
      }
      var dataLen := ReadU16(buf, cursor + 1);
      var expiresAt := ReadU64(buf, cursor + 3);
      var dataOffset := cursor + HEADER;
      if dataOffset + dataLen > |buf| {
        return Err(ActionBufferInvalid);
      }
      ghost var v := ActionView(kind.value, expiresAt, dataOffset, dataLen);
      ghost var before := actions;
      actions := actions + [ActionView(kind.value, expiresAt, dataOffset, dataLen)];
      assert ViewAt(buf, cursor) == Some(v);
      cursor := dataOffset + dataLen;
      if |actions| > MAX_ACTIONS {
        return Err(ActionBufferInvalid);
      }
      forall rest: seq<ActionView>
        ensures before + ([v] + rest) == actions + rest
      {
      }
    }
    assert actions + [] == actions;
    r := Ok(actions);
  }

  // ---------------------------------------------------------------------------
  // What a successful parse means, without the cursor
  // ---------------------------------------------------------------------------

  /** The views lie end to end over [lo, hi): no gap, no overlap. */
  ghost predicate Tiles(vs: seq<ActionView>, lo: nat, hi: nat) {
    if vs == [] then lo == hi
    else vs[0].dataOffset == lo + HEADER && Tiles(vs[1..], vs[0].End(), hi)
  }

  /** `v` says what the header bytes in front of its data say. */
  ghost predicate HeaderAgrees(buf: seq<byte>, v: ActionView) {
    && HEADER <= v.dataOffset
    && v.End() <= |buf|
    && TypeFromU8(buf[v.dataOffset - 11]) == Some(v.kind)
    && ReadU16(buf, v.dataOffset - 10) == v.dataLen
    && ReadU64(buf, v.dataOffset - 8) == v.expiresAt
  }

  lemma {:induction false} TilesBound(vs: seq<ActionView>, lo: nat, hi: nat, i: nat)
    requires Tiles(vs, lo, hi) && i < |vs|
    ensures lo + HEADER <= vs[i].dataOffset && vs[i].End() <= hi
  {
    TilesLength(vs[1..], vs[0].End(), hi);
    if i > 0 {
      TilesBound(vs[1..], vs[0].End(), hi, i - 1);
    }
  }

  lemma {:induction false} TilesLength(vs: seq<ActionView>, lo: nat, hi: nat)
    requires Tiles(vs, lo, hi)
    ensures lo + HEADER * |vs| <= hi
  {
    if vs != [] {
      TilesLength(vs[1..], vs[0].End(), hi);
    }
  }

  /** Two views of one tiling never share a byte, headers included. */
  lemma {:induction false} TilesDisjoint(vs: seq<ActionView>, lo: nat, hi: nat, i: nat, j: nat)
    requires Tiles(vs, lo, hi) && i < j < |vs|
    ensures vs[i].End() + HEADER <= vs[j].dataOffset
  {
    if i == 0 {
      TilesBound(vs[1..], vs[0].End(), hi, j - 1);
    } else {
      TilesDisjoint(vs[1..], vs[0].End(), hi, i - 1, j - 1);
    }
  }

  lemma {:induction false} ParseSound(buf: seq<byte>, cursor: nat, n: nat)
    requires cursor <= |buf|
    ensures ParseFrom(buf, cursor, n).Ok? ==>
              var vs := ParseFrom(buf, cursor, n).value;
              && Tiles(vs, cursor, |buf|)
              && (vs != [] ==> n + |vs| <= MAX_ACTIONS)
              && forall i :: 0 <= i < |vs| ==> HeaderAgrees(buf, vs[i])
    decreases |buf| - cursor
  {
    if cursor < |buf| && ViewAt(buf, cursor).Some? && n + 1 <= MAX_ACTIONS {
      ParseSound(buf, ViewAt(buf, cursor).value.End(), n + 1);
    }
  }

  lemma {:induction false} ParseComplete(buf: seq<byte>, vs: seq<ActionView>, cursor: nat, n: nat)
    requires cursor <= |buf|
    requires Tiles(vs, cursor, |buf|) && n + |vs| <= MAX_ACTIONS
    requires forall i :: 0 <= i < |vs| ==> HeaderAgrees(buf, vs[i])
    ensures ParseFrom(buf, cursor, n) == Ok(vs)
    decreases |vs|
  {
    if vs != [] {
      assert HeaderAgrees(buf, vs[0]);
      ParseComplete(buf, vs[1..], vs[0].End(), n + 1);
      assert vs == [vs[0]] + vs[1..];
    }
  }

  /**
   A buffer parses to `vs` exactly when `vs` are at most sixteen views that tile it and agree
   with its headers: nothing else is looked at, and no other list of views fits.
   */
  lemma ParseMeaning(buf: seq<byte>, vs: seq<ActionView>)
    ensures Parse(buf) == Ok(vs) <==>
            && |vs| <= 16
            && Tiles(vs, 0, |buf|)
            && forall i :: 0 <= i < |vs| ==> HeaderAgrees(buf, vs[i])
  {
    ParseSound(buf, 0, 0);
    if |vs| <= MAX_ACTIONS && Tiles(vs, 0, |buf|) && forall i :: 0 <= i < |vs| ==> HeaderAgrees(buf, vs[i]) {
      ParseComplete(buf, vs, 0, 0);
    }
  }

  /** Bytes outside every header may change freely without changing the parse. */
  lemma ParseIgnoresData(a: seq<byte>, b: seq<byte>, vs: seq<ActionView>)
    requires |a| == |b| && Parse(a) == Ok(vs)
    requires forall i, k :: 0 <= i < |vs| && vs[i].dataOffset - HEADER <= k < vs[i].dataOffset && 0 <= k < |a| ==>
              a[k] == b[k]
    ensures Parse(b) == Ok(vs)
  {
    ParseMeaning(a, vs);
    forall i | 0 <= i < |vs|
      ensures HeaderAgrees(b, vs[i])
    {
      var v := vs[i];
      assert HeaderAgrees(a, v);
      var o := v.dataOffset;
      assert a[o - 11] == b[o - 11];
      assert a[o - 10..o - 8] == b[o - 10..o - 8];
      assert a[o - 8..o] == b[o - 8..o];
    }
    ParseMeaning(b, vs);
  }

  // ---------------------------------------------------------------------------
  // The counting pass that sizes the vector
  // ---------------------------------------------------------------------------

  function CountFrom(buf: seq<byte>, cursor: nat, count: nat): nat
    decreases |buf| - cursor
  {
    if count <= MAX_ACTIONS && cursor + HEADER <= |buf|
    then CountFrom(buf, cursor + HEADER + ReadU16(buf, cursor + 1), count + 1)
    else count
  }

  /** `count_action_headers`: reads lengths only, up to one header past the cap. */
  method CountActionHeaders(buf: seq<byte>) returns (count: nat)
    ensures Parse(buf).Ok? ==> count == |Parse(buf).value|
    ensures count <= MAX_ACTIONS + 1
  {
    count := 0;
    var cursor := 0;
    while count <= MAX_ACTIONS && cursor + HEADER <= |buf|
      invariant count <= MAX_ACTIONS + 1
      invariant CountFrom(buf, cursor, count) == CountFrom(buf, 0, 0)
      decreases |buf| - cursor
    {
      var dataLen := ReadU16(buf, cursor + 1);
      cursor := cursor + HEADER + dataLen;
      count := count + 1;
    }
    CountMatchesParse(buf, 0, 0);
  }

  lemma {:induction false} CountMatchesParse(buf: seq<byte>, cursor: nat, n: nat)
    requires cursor <= |buf|
    ensures ParseFrom(buf, cursor, n).Ok? ==> CountFrom(buf, cursor, n) == n + |ParseFrom(buf, cursor, n).value|
    decreases |buf| - cursor
  {
    if cursor < |buf| && ViewAt(buf, cursor).Some? && n + 1 <= MAX_ACTIONS {
      CountMatchesParse(buf, ViewAt(buf, cursor).value.End(), n + 1);
    }
  }
}
