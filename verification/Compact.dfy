/**
 Compact instructions (`program/src/compact.rs`): the wire codec, the accounts-hash preimage
 and the inner instructions Execute issues from them.
 */
module Compact {
  import opened Bytes

  const MAX_INSTRUCTIONS: nat := 16
  const MAX_ACCOUNT_INDEX: nat := 127

  datatype CompactInstruction = CompactInstruction(programIndex: byte, accounts: seq<byte>, data: seq<byte>)

  // ---------------------------------------------------------------------------
  // Wire format
  // ---------------------------------------------------------------------------

  /** `from_bytes`: one instruction and the bytes after it. */
  function ParseOne(bytes: seq<byte>): Option<(CompactInstruction, seq<byte>)> {
    if |bytes| < 4 || bytes[0] > MAX_ACCOUNT_INDEX then None
    else
      var n: nat := bytes[1];
      if |bytes| < 2 + n + 2 then None
      else
        var len := ReadU16(bytes, 2 + n);
        var start := 2 + n + 2;
        if |bytes| < start + len then None
        else Some((CompactInstruction(bytes[0], bytes[2..2 + n], bytes[start..start + len]), bytes[start + len..]))
  }

  /** What an instruction must satisfy to be written: account and data lengths fit their fields. */
  ghost predicate Encodable(ix: CompactInstruction) {
    ix.programIndex <= 127 && |ix.accounts| <= 255 && |ix.data| < 0x1_0000
  }

  /** `to_bytes`; the length field keeps only the low sixteen bits of the data length, the count one byte. */
  function EncodeOne(ix: CompactInstruction): seq<byte> {
    [ix.programIndex, |ix.accounts| % 256] + ix.accounts + ToLe(|ix.data|, 2) + ix.data
  }

  function ParseMany(bytes: seq<byte>, n: nat): Option<(seq<CompactInstruction>, seq<byte>)> {
    if n == 0 then Some(([], bytes))
    else match ParseOne(bytes)
      case None => None
      case Some((ix, rest)) =>
        match ParseMany(rest, n - 1)
        case None => None
        case Some((ixs, left)) => Some(([ix] + ixs, left))
  }

  /** The instructions and how many bytes they took. */
  function Parse(bytes: seq<byte>): Option<(seq<CompactInstruction>, int)> {
    if bytes == [] || bytes[0] > MAX_INSTRUCTIONS then None
    else match ParseMany(bytes[1..], bytes[0])
      case None => None
      case Some((ixs, rest)) => Some((ixs, |bytes| - |rest|))
  }

  /** `parse_compact_instructions_ref_with_len`. */
  method ParseCompactInstructions(bytes: seq<byte>) returns (r: Option<(seq<CompactInstruction>, int)>)
    ensures r == Parse(bytes)
  {
    if |bytes| == 0 {
      return None;
    }
    var count: nat := bytes[0];
    if count > MAX_INSTRUCTIONS {
      return None;
    }
    var ixs: seq<CompactInstruction> := [];
    var remaining := bytes[1..];
    if ParseMany(remaining, count).Some? {
      assert [] + ParseMany(remaining, count).value.0 == ParseMany(remaining, count).value.0;
    }
    for i := 0 to count
      invariant |ixs| == i
      invariant ParseMany(bytes[1..], count) ==
                match ParseMany(remaining, count - i)
                case None => None
                case Some((more, left)) => Some((ixs + more, left))
    {
      var one := ParseOne(remaining);
      if one.None? {
        return None;
      }
      ghost var before, ix := ixs, one.value.0;
      forall more: seq<CompactInstruction> ensures before + ([ix] + more) == (before + [ix]) + more {
      }
      ixs := ixs + [one.value.0];
      remaining := one.value.1;
    }
    assert ixs + [] == ixs;
    r := Some((ixs, |bytes| - |remaining|));
  }

  function EncodeMany(ixs: seq<CompactInstruction>): seq<byte> {
    if ixs == [] then [] else EncodeOne(ixs[0]) + EncodeMany(ixs[1..])
  }

  /** The source asserts these bounds before it writes a byte. */
  ghost predicate Writable(ixs: seq<CompactInstruction>) {
    |ixs| <= 255 && forall i :: 0 <= i < |ixs| ==> |ixs[i].accounts| <= 255
  }

  /** The wire form; both count fields are a byte wide. */
  function Encode(ixs: seq<CompactInstruction>): seq<byte> {
    [|ixs| % 256] + EncodeMany(ixs)
  }

  /** `into_bytes`. */
  method IntoBytes(ixs: seq<CompactInstruction>) returns (bytes: seq<byte>)
    requires Writable(ixs)
    ensures bytes == Encode(ixs)
  {
    bytes := [|ixs|];
    for i := 0 to |ixs|
      invariant Encode(ixs) == bytes + EncodeMany(ixs[i..])
    {
      var ix := ixs[i];
      assert ixs[i..][1..] == ixs[i + 1..];
      EncodeStep(bytes, ixs[i..]);
      bytes := bytes + [ix.programIndex];
      bytes := bytes + [|ix.accounts|];
      bytes := bytes + ix.accounts;
      bytes := bytes + ToLe(|ix.data|, 2);
      bytes := bytes + ix.data;
    }
  }

  lemma EncodeStep(bytes: seq<byte>, ixs: seq<CompactInstruction>)
    requires ixs != [] && |ixs[0].accounts| <= 255
    ensures var ix := ixs[0];
            bytes + EncodeMany(ixs) ==
            bytes + [ix.programIndex] + [|ix.accounts|] + ix.accounts + ToLe(|ix.data|, 2) + ix.data +
                EncodeMany(ixs[1..])
  {
  }

  /** What parsing can return is what serializing can represent. */
  ghost predicate Representable(ixs: seq<CompactInstruction>) {
    |ixs| <= 16 && forall i :: 0 <= i < |ixs| ==> Encodable(ixs[i])
  }

  lemma ParseEncodedOne(ix: CompactInstruction, tail: seq<byte>)
    requires Encodable(ix)
    ensures ParseOne(EncodeOne(ix) + tail) == Some((ix, tail))
  {
    var b, n, len := EncodeOne(ix) + tail, |ix.accounts|, |ix.data|;
    PowersOf256();
    FromToLe(len, 2);
    assert b[2..2 + n] == ix.accounts;
    assert b[2 + n..4 + n] == ToLe(len, 2);
    assert b[4 + n..4 + n + len] == ix.data;
    assert b[4 + n + len..] == tail;
  }

  lemma EncodeParsedOne(bytes: seq<byte>)
    requires ParseOne(bytes).Some?
    ensures var (ix, rest) := ParseOne(bytes).value; Encodable(ix) && EncodeOne(ix) + rest == bytes
  {
    var (ix, rest) := ParseOne(bytes).value;
    var n, len := |ix.accounts|, |ix.data|;
    assert ReadU16(bytes, 2 + n) == len;
    ToFromLe(bytes[2 + n..4 + n]);
    Recombine(bytes, 2, 2 + n, 4 + n, 4 + n + len);
    assert bytes[..2] == [ix.programIndex, n % 256];
  }

  lemma Recombine(b: seq<byte>, i: nat, j: nat, k: nat, l: nat)
    requires i <= j <= k <= l <= |b|
    ensures b == b[..i] + b[i..j] + b[j..k] + b[k..l] + b[l..]
  {
    assert b == b[..l] + b[l..];
    assert b[..l] == b[..k] + b[k..l];
    assert b[..k] == b[..j] + b[j..k];
    assert b[..j] == b[..i] + b[i..j];
  }

  lemma {:induction false} ParseEncodedMany(ixs: seq<CompactInstruction>, tail: seq<byte>)
    requires forall i :: 0 <= i < |ixs| ==> Encodable(ixs[i])
    ensures ParseMany(EncodeMany(ixs) + tail, |ixs|) == Some((ixs, tail))
  {
    if ixs == [] {
      assert [] + tail == tail;
    } else {
      var rest := EncodeMany(ixs[1..]) + tail;
      assert EncodeMany(ixs) + tail == EncodeOne(ixs[0]) + rest;
      ParseEncodedOne(ixs[0], rest);
      ParseEncodedMany(ixs[1..], tail);
      assert [ixs[0]] + ixs[1..] == ixs;
    }
  }

  lemma {:induction false} EncodeParsedMany(bytes: seq<byte>, n: nat)
    requires ParseMany(bytes, n).Some?
    ensures var (ixs, rest) := ParseMany(bytes, n).value;
            && |ixs| == n
            && (forall i :: 0 <= i < |ixs| ==> Encodable(ixs[i]))
            && EncodeMany(ixs) + rest == bytes
    decreases n
  {
    if n == 0 {
      assert [] + bytes == bytes;
    } else {
      EncodeParsedOne(bytes);
      var (ix, rest) := ParseOne(bytes).value;
      EncodeParsedMany(rest, n - 1);
      var (ixs, left) := ParseMany(rest, n - 1).value;
      assert ([ix] + ixs)[1..] == ixs;
      assert EncodeMany([ix] + ixs) + left == EncodeOne(ix) + (EncodeMany(ixs) + left);
    }
  }

  lemma ParsedParts(bytes: seq<byte>) returns (ixs: seq<CompactInstruction>, rest: seq<byte>)
    requires Parse(bytes).Some?
    ensures Parse(bytes) == Some((ixs, |bytes| - |rest|))
    ensures bytes != [] && |ixs| == bytes[0] && Representable(ixs)
    ensures EncodeMany(ixs) + rest == bytes[1..]
  {
    EncodeParsedMany(bytes[1..], bytes[0]);
    ixs, rest := ParseMany(bytes[1..], bytes[0]).value.0, ParseMany(bytes[1..], bytes[0]).value.1;
  }

  /** Re-serializing a parse gives back exactly the bytes it consumed. */
  lemma SerializeInvertsParse(bytes: seq<byte>)
    requires Parse(bytes).Some?
    ensures var (ixs, used) := Parse(bytes).value;
            Representable(ixs) && 0 <= used <= |bytes| && Encode(ixs) == bytes[..used]
  {
    var ixs, rest := ParsedParts(bytes);
    assert |bytes[1..]| == |EncodeMany(ixs)| + |rest|;
    ConsumedPrefix(bytes, EncodeMany(ixs), rest);
    assert [|ixs| % 256] == [bytes[0]];
  }

  lemma ConsumedPrefix(bytes: seq<byte>, middle: seq<byte>, rest: seq<byte>)
    requires bytes != [] && middle + rest == bytes[1..]
    ensures bytes[..|bytes| - |rest|] == [bytes[0]] + middle
  {
    assert bytes == [bytes[0]] + (middle + rest);
  }

  lemma ParseWith(count: byte, body: seq<byte>, ixs: seq<CompactInstruction>, rest: seq<byte>)
    requires count <= MAX_INSTRUCTIONS && ParseMany(body, count) == Some((ixs, rest))
    ensures Parse([count] + body) == Some((ixs, 1 + |body| - |rest|))
  {
    assert ([count] + body)[1..] == body;
  }

  lemma RepresentableSurvives(ixs: seq<CompactInstruction>, tail: seq<byte>)
    requires Representable(ixs)
    ensures Parse(Encode(ixs) + tail) == Some((ixs, |Encode(ixs)|))
  {
    ParseEncodedMany(ixs, tail);
    ParseWith(|ixs|, EncodeMany(ixs) + tail, ixs, tail);
    EncodeTail(ixs, tail);
  }

  lemma CountFirst(n: byte, body: seq<byte>, tail: seq<byte>)
    ensures ([n] + body) + tail == [n] + (body + tail) && |[n] + body| == 1 + |body|
  {
  }

  lemma {:induction false} EncodeTail(ixs: seq<CompactInstruction>, tail: seq<byte>)
    requires |ixs| <= MAX_INSTRUCTIONS
    ensures Encode(ixs) + tail == [|ixs|] + (EncodeMany(ixs) + tail)
    ensures |Encode(ixs)| == 1 + |EncodeMany(ixs)|
  {
    CountFirst(|ixs|, EncodeMany(ixs), tail);
  }

  lemma ParsedIsRepresentable(bytes: seq<byte>, ixs: seq<CompactInstruction>, n: int)
    requires Parse(bytes) == Some((ixs, n))
    ensures Representable(ixs)
  {
    SerializeInvertsParse(bytes);
  }

  /**
   Parsing inverts serializing, whatever bytes follow, exactly for representable lists: a
   seventeenth instruction, a program index over 127 or 65536 bytes of data does not survive.
   */
  lemma ParseInvertsSerialize(ixs: seq<CompactInstruction>, tail: seq<byte>)
    ensures Parse(Encode(ixs) + tail) == Some((ixs, |Encode(ixs)|)) <==> Representable(ixs)
  {
    if Representable(ixs) {
      RepresentableSurvives(ixs, tail);
    } else if Parse(Encode(ixs) + tail) == Some((ixs, |Encode(ixs)|)) {
      ParsedIsRepresentable(Encode(ixs) + tail, ixs, |Encode(ixs)|);
    }
  }

  /**
   The split of instruction data into compact bytes and authentication payload is unambiguous:
   the parse depends on the consumed prefix alone.
   */
  lemma SplitIsUnambiguous(bytes: seq<byte>, other: seq<byte>)
    requires Parse(bytes).Some?
    requires var (_, used) := Parse(bytes).value; 0 <= used <= |bytes| && bytes[..used] <= other
    ensures Parse(other) == Parse(bytes)
  {
    var (ixs, used) := Parse(bytes).value;
    SerializeInvertsParse(bytes);
    var tail := other[used..];
    assert other == Encode(ixs) + tail;
    RepresentableSurvives(ixs, tail);
  }

  // ---------------------------------------------------------------------------
  // The account list, the preimage and the inner instructions
  // ---------------------------------------------------------------------------

  /**
   The accounts an instruction was passed. A repeated key shares its first entry's account, so
   privileges belong to keys, not to positions.
   */
  datatype Listing = Listing(keys: seq<Key>, signers: set<Key>, writable: set<Key>)

  /** `decode_account_index`: seven bits of index, one bit asking to forward the signature. */
  function DecodeIndex(b: byte): (nat, bool) {
    (b % 128, b >= 128)
  }

  function Flags(signer: bool, writable: bool): byte {
    (if signer then 1 else 0) + (if writable then 2 else 0)
  }

  /** One account's 33 bytes of the preimage: its key, then the privileges the runtime granted it. */
  function HashEntry(list: Listing, index: nat): Option<seq<byte>> {
    if index >= |list.keys| then None
    else Some(list.keys[index] + [Flags(list.keys[index] in list.signers, list.keys[index] in list.writable)])
  }

  function AccountEntries(accounts: seq<byte>, list: Listing): Option<seq<byte>> {
    if accounts == [] then Some([])
    else match (HashEntry(list, DecodeIndex(accounts[0]).0), AccountEntries(accounts[1..], list))
      case (Some(e), Some(rest)) => Some(e + rest)
      case _ => None
  }

  function InstructionEntries(ix: CompactInstruction, list: Listing): Option<seq<byte>> {
    match (HashEntry(list, DecodeIndex(ix.programIndex).0), AccountEntries(ix.accounts, list))
    case (Some(e), Some(rest)) => Some(e + rest)
    case _ => None
  }

  function Preimage(ixs: seq<CompactInstruction>, list: Listing): Option<seq<byte>> {
    if ixs == [] then Some([])
    else match (InstructionEntries(ixs[0], list), Preimage(ixs[1..], list))
      case (Some(e), Some(rest)) => Some(e + rest)
      case _ => None
  }

  method PushAccounts(start: seq<byte>, accounts: seq<byte>, list: Listing) returns (r: Option<seq<byte>>)
    ensures r == Joined(start, AccountEntries(accounts, list))
  {
    var preimage := start;
    assert accounts[0..] == accounts;
    for j := 0 to |accounts|
      invariant Joined(start, AccountEntries(accounts, list)) == Joined(preimage, AccountEntries(accounts[j..], list))
    {
      assert accounts[j..][1..] == accounts[j + 1..];
      var entry := HashEntry(list, DecodeIndex(accounts[j]).0);
      if entry.None? {
        return None;
      }
      JoinTwice(preimage, entry.value, AccountEntries(accounts[j + 1..], list));
      preimage := preimage + entry.value;
    }
    assert accounts[|accounts|..] == [] && preimage + [] == preimage;
    r := Some(preimage);
  }

  /** `accounts_hash_preimage`: every program and account, in walk order. */
  method AccountsHashPreimage(ixs: seq<CompactInstruction>, list: Listing) returns (r: Option<seq<byte>>)
    ensures r == Preimage(ixs, list)
  {
    var preimage: seq<byte> := [];
    assert ixs[0..] == ixs &&
        (Preimage(ixs, list).Some? ==> [] + Preimage(ixs, list).value == Preimage(ixs, list).value);
    for i := 0 to |ixs|
      invariant Preimage(ixs, list) == Joined(preimage, Preimage(ixs[i..], list))
    {
      assert ixs[i..][1..] == ixs[i + 1..];
      var program := HashEntry(list, DecodeIndex(ixs[i].programIndex).0);
      if program.None? {
        return None;
      }
      var pushed := PushAccounts(preimage + program.value, ixs[i].accounts, list);
      if pushed.None? {
        return None;
      }
      JoinTwice(preimage, program.value, AccountEntries(ixs[i].accounts, list));
      JoinTwice(preimage, InstructionEntries(ixs[i], list).value, Preimage(ixs[i + 1..], list));
      preimage := pushed.value;
    }
    assert ixs[|ixs|..] == [] && preimage + [] == preimage;
    r := Some(preimage);
  }

  ghost function Joined(a: seq<byte>, b: Option<seq<byte>>): Option<seq<byte>> {
    match b case Some(s) => Some(a + s) case None => None
  }

  lemma JoinTwice(a: seq<byte>, b: seq<byte>, c: Option<seq<byte>>)
    ensures Joined(a + b, c) == match c case Some(s) => Some(a + (b + s)) case None => None
  {
    if c.Some? {
      assert (a + b) + c.value == a + (b + c.value);
    }
  }

  datatype Meta = Meta(key: Key, signer: bool, writable: bool)

  /** An instruction as the runtime receives it. */
  datatype Cpi = Cpi(program: Key, metas: seq<Meta>, data: seq<byte>)

  /** Who may lend a signature: never the payer, and under a session only the session key. */
  datatype Context = Context(payer: Key, vault: Key, session: Option<Key>) {
    function MetaFor(key: Key, forward: bool, signer: bool, writable: bool): Meta {
      var forwarded := forward && signer && key != payer && (session.None? || key == session.value);
      Meta(key, forwarded || key == vault, writable)
    }
  }

  function Metas(accounts: seq<byte>, list: Listing, ctx: Context): Option<seq<Meta>> {
    if accounts == [] then Some([])
    else
      var (index, forward) := DecodeIndex(accounts[0]);
      if index >= |list.keys| then None
      else match Metas(accounts[1..], list, ctx)
        case None => None
        case Some(rest) =>
          var key := list.keys[index];
          Some([ctx.MetaFor(key, forward, key in list.signers, key in list.writable)] + rest)
  }

  function Issue(ix: CompactInstruction, list: Listing, ctx: Context): Option<Cpi> {
    if ix.programIndex as int >= |list.keys| then None
    else match Metas(ix.accounts, list, ctx)
      case None => None
      case Some(metas) => Some(Cpi(list.keys[ix.programIndex], metas, ix.data))
  }

  /** `decompress`, then the metas pushed in order. */
  method Decompress(ix: CompactInstruction, list: Listing, ctx: Context) returns (r: Option<Cpi>)
    ensures r == Issue(ix, list, ctx)
  {
    if ix.programIndex as int >= |list.keys| {
      return None;
    }
    var metas: seq<Meta> := [];
    assert ix.accounts[0..] == ix.accounts;
    if Metas(ix.accounts, list, ctx).Some? {
      assert [] + Metas(ix.accounts, list, ctx).value == Metas(ix.accounts, list, ctx).value;
    }
    for i := 0 to |ix.accounts|
      invariant Metas(ix.accounts, list, ctx) ==
                match Metas(ix.accounts[i..], list, ctx) case None => None case Some(rest) => Some(metas + rest)
    {
      assert ix.accounts[i..][1..] == ix.accounts[i + 1..];
      var (index, forward) := DecodeIndex(ix.accounts[i]);
      if index >= |list.keys| {
        return None;
      }
      var key := list.keys[index];
      ghost var before, m := metas, ctx.MetaFor(key, forward, key in list.signers, key in list.writable);
      forall rest: seq<Meta> ensures before + ([m] + rest) == (before + [m]) + rest {
      }
      metas := metas + [ctx.MetaFor(key, forward, key in list.signers, key in list.writable)];
    }
    assert ix.accounts[|ix.accounts|..] == [];
    assert metas + [] == metas;
    r := Some(Cpi(list.keys[ix.programIndex], metas, ix.data));
  }

  function IssueAll(ixs: seq<CompactInstruction>, list: Listing, ctx: Context): Option<seq<Cpi>> {
    if ixs == [] then Some([])
    else match (Issue(ixs[0], list, ctx), IssueAll(ixs[1..], list, ctx))
      case (Some(c), Some(rest)) => Some([c] + rest)
      case _ => None
  }

  /** An entry determines the key and both privileges. */
  lemma EntryDetermines(a: Listing, b: Listing, i: nat, j: nat)
    requires HashEntry(a, i).Some? && HashEntry(b, j).Some? && HashEntry(a, i) == HashEntry(b, j)
    ensures a.keys[i] == b.keys[j]
    ensures (a.keys[i] in a.signers) == (b.keys[j] in b.signers)
    ensures (a.keys[i] in a.writable) == (b.keys[j] in b.writable)
  {
    var x, y := HashEntry(a, i).value, HashEntry(b, j).value;
    assert a.keys[i] == x[..32] && b.keys[j] == y[..32];
    assert x[32] == y[32];
  }

  lemma SplitAt(a: seq<byte>, b: seq<byte>, c: seq<byte>, d: seq<byte>)
    requires |a| == |c| && a + b == c + d
    ensures a == c && b == d
  {
    assert a == (a + b)[..|a|] && c == (c + d)[..|c|];
    assert b == (a + b)[|a|..] && d == (c + d)[|c|..];
  }

  lemma {:induction false} AccountEntriesLength(accounts: seq<byte>, list: Listing)
    ensures AccountEntries(accounts, list).Some? ==> |AccountEntries(accounts, list).value| == 33 * |accounts|
  {
    if accounts != [] {
      AccountEntriesLength(accounts[1..], list);
    }
  }

  lemma {:induction false} MetasDetermined(accounts: seq<byte>, a: Listing, b: Listing, ctx: Context)
    requires AccountEntries(accounts, a).Some? && AccountEntries(accounts, a) == AccountEntries(accounts, b)
    ensures Metas(accounts, a, ctx).Some? && Metas(accounts, a, ctx) == Metas(accounts, b, ctx)
  {
    if accounts != [] {
      var i := DecodeIndex(accounts[0]).0;
      SplitAt(HashEntry(a, i).value, AccountEntries(accounts[1..], a).value,
              HashEntry(b, i).value, AccountEntries(accounts[1..], b).value);
      EntryDetermines(a, b, i, i);
      MetasDetermined(accounts[1..], a, b, ctx);
    }
  }

  lemma IssueDetermined(ix: CompactInstruction, a: Listing, b: Listing, ctx: Context)
    requires ix.programIndex <= MAX_ACCOUNT_INDEX
    requires InstructionEntries(ix, a).Some? && InstructionEntries(ix, a) == InstructionEntries(ix, b)
    ensures Issue(ix, a, ctx).Some? && Issue(ix, a, ctx) == Issue(ix, b, ctx)
  {
    var i := DecodeIndex(ix.programIndex).0;
    AccountEntriesLength(ix.accounts, a);
    SplitAt(HashEntry(a, i).value, AccountEntries(ix.accounts, a).value,
            HashEntry(b, i).value, AccountEntries(ix.accounts, b).value);
    EntryDetermines(a, b, i, i);
    MetasDetermined(ix.accounts, a, b, ctx);
  }

  /**
   What is signed is what runs. The signer commits to the compact bytes and to the preimage; any
   two account lists with that preimage, however ordered or padded, issue the same instructions:
   programs, keys, privileges and data.
   */
  lemma {:induction false} SignedDeterminesIssued(ixs: seq<CompactInstruction>, a: Listing, b: Listing, ctx: Context)
    requires forall i :: 0 <= i < |ixs| ==> ixs[i].programIndex <= MAX_ACCOUNT_INDEX
    requires Preimage(ixs, a).Some? && Preimage(ixs, a) == Preimage(ixs, b)
    ensures IssueAll(ixs, a, ctx).Some? && IssueAll(ixs, a, ctx) == IssueAll(ixs, b, ctx)
  {
    if ixs != [] {
      AccountEntriesLength(ixs[0].accounts, a);
      AccountEntriesLength(ixs[0].accounts, b);
      SplitAt(InstructionEntries(ixs[0], a).value, Preimage(ixs[1..], a).value,
              InstructionEntries(ixs[0], b).value, Preimage(ixs[1..], b).value);
      IssueDetermined(ixs[0], a, b, ctx);
      SignedDeterminesIssued(ixs[1..], a, b, ctx);
    }
  }

  /** Two executions whose compact bytes and preimages agree run the same inner instructions. */
  lemma SameBytesSameRun(bytesA: seq<byte>, bytesB: seq<byte>, a: Listing, b: Listing, ctx: Context)
    requires Parse(bytesA).Some? && Parse(bytesB).Some?
    requires var (_, used) := Parse(bytesA).value; 0 <= used <= |bytesA| && bytesA[..used] <= bytesB
    requires Preimage(Parse(bytesA).value.0, a).Some?
    requires Preimage(Parse(bytesA).value.0, a) == Preimage(Parse(bytesB).value.0, b)
    ensures IssueAll(Parse(bytesA).value.0, a, ctx).Some?
    ensures IssueAll(Parse(bytesA).value.0, a, ctx) == IssueAll(Parse(bytesB).value.0, b, ctx)
  {
    SplitIsUnambiguous(bytesA, bytesB);
    SerializeInvertsParse(bytesA);
    var ixs := Parse(bytesA).value.0;
    assert forall i :: 0 <= i < |ixs| ==> Encodable(ixs[i]);
    SignedDeterminesIssued(ixs, a, b, ctx);
  }

  /**
   Deferred execution checks hashes: instructions that parse, whose consumed bytes and whose
   accounts hash to what was signed, issue the calls that were signed, or a named pair collides.
   */
  lemma SameHashesSameRun(sha: Sha, signed: seq<byte>, presented: seq<byte>, a: Listing, b: Listing, ctx: Context)
    requires Parse(signed).Some? && Parse(signed).value.1 == |signed| && Parse(presented).Some?
    requires var (ixs, _) := Parse(signed).value; Preimage(ixs, a).Some?
    requires var (ixs, used) := Parse(presented).value;
             && 0 <= used <= |presented| && Preimage(ixs, b).Some?
             && sha(presented[..used]) == sha(signed)
             && sha(Preimage(ixs, b).value) == sha(Preimage(Parse(signed).value.0, a).value)
    ensures var (ixs, used) := Parse(presented).value;
            || Collides(sha, presented[..used], signed)
            || Collides(sha, Preimage(ixs, b).value, Preimage(Parse(signed).value.0, a).value)
            || (IssueAll(ixs, b, ctx).Some? && IssueAll(ixs, b, ctx) == IssueAll(Parse(signed).value.0, a, ctx))
  {
    var (ixs, used) := Parse(presented).value;
    if presented[..used] == signed && Preimage(ixs, b) == Preimage(Parse(signed).value.0, a) {
      assert signed[..|signed|] == signed;
      SameBytesSameRun(signed, presented, a, b, ctx);
    }
  }

  // ---------------------------------------------------------------------------
  // Account by account
  // ---------------------------------------------------------------------------

  /** The key an account byte names: its low seven bits index the list. */
  predicate Names(list: Listing, b: byte, k: Key) {
    b % 128 < |list.keys| && list.keys[b % 128] == k
  }

  ghost predicate AllListed(list: Listing, accounts: seq<byte>) {
    forall j :: 0 <= j < |accounts| ==> accounts[j] % 128 < |list.keys|
  }

  lemma {:induction false} MetasAt(accounts: seq<byte>, list: Listing, ctx: Context)
    ensures Metas(accounts, list, ctx).Some? <==> AllListed(list, accounts)
    ensures Metas(accounts, list, ctx).Some? ==>
              var ms := Metas(accounts, list, ctx).value;
              |ms| == |accounts| && forall j :: 0 <= j < |accounts| ==> IssuedFor(list, ctx, accounts[j], ms[j])
  {
    if accounts != [] {
      var rest := accounts[1..];
      MetasAt(rest, list, ctx);
      assert forall j :: 0 < j < |accounts| ==> accounts[j] == rest[j - 1];
      if AllListed(list, rest) && accounts[0] % 128 < |list.keys| {
        forall j | 0 <= j < |accounts| ensures accounts[j] % 128 < |list.keys| {
          assert j > 0 ==> accounts[j] == rest[j - 1];
        }
        var ms := Metas(accounts, list, ctx).value;
        forall j | 0 <= j < |accounts| ensures IssuedFor(list, ctx, accounts[j], ms[j]) {
          assert j > 0 ==> ms[j] == Metas(rest, list, ctx).value[j - 1];
        }
      }
      if AllListed(list, accounts) {
        forall j | 0 <= j < |rest| ensures rest[j] % 128 < |list.keys| {
          assert rest[j] == accounts[j + 1];
        }
      }
    }
  }

  /**
   What the runtime is told of an account: the listed key; writable as it was given; a signer if
   it is the vault, or if its byte asks for it, it signed, it is not the payer and, under a
   session, it is the session key.
   */
  ghost predicate IssuedFor(list: Listing, ctx: Context, b: byte, m: Meta) {
    && Names(list, b, m.key)
    && (m.writable <==> m.key in list.writable)
    && (m.signer <==>
          || m.key == ctx.vault
          || (&& b >= 128 && m.key in list.signers && m.key != ctx.payer
              && (ctx.session.None? || m.key == ctx.session.value)))
  }

  /**
   An instruction is issued exactly when every index it uses is listed, and then it is the named
   program, the data as given, and account by account what `IssuedFor` says.
   */
  lemma IssuedExactly(ix: CompactInstruction, list: Listing, ctx: Context)
    ensures Issue(ix, list, ctx).Some? <==> ix.programIndex < |list.keys| && AllListed(list, ix.accounts)
    ensures Issue(ix, list, ctx).Some? ==>
              var c := Issue(ix, list, ctx).value;
              && c.program == list.keys[ix.programIndex] && c.data == ix.data && |c.metas| == |ix.accounts|
              && forall j :: 0 <= j < |ix.accounts| ==> IssuedFor(list, ctx, ix.accounts[j], c.metas[j])
  {
    MetasAt(ix.accounts, list, ctx);
  }

  /**
   Who can sign an inner instruction: the vault, or an outer signer other than the fee payer; in
   the session branch only the vault and the session key.
   */
  lemma InnerSigners(ix: CompactInstruction, list: Listing, ctx: Context, m: Meta)
    requires Issue(ix, list, ctx).Some? && m in Issue(ix, list, ctx).value.metas && m.signer
    requires ctx.payer != ctx.vault
    ensures m.key != ctx.payer
    ensures m.key == ctx.vault || m.key in list.signers
    ensures ctx.session.Some? ==> m.key == ctx.vault || m.key == ctx.session.value
  {
    var metas := Issue(ix, list, ctx).value.metas;
    var k :| 0 <= k < |metas| && metas[k] == m;
    IssuedExactly(ix, list, ctx);
    assert IssuedFor(list, ctx, ix.accounts[k], metas[k]);
  }

  /** The indices in walk order: each instruction's program, then its accounts. */
  ghost function Walk(ixs: seq<CompactInstruction>): seq<byte> {
    if ixs == [] then [] else [ixs[0].programIndex] + ixs[0].accounts + Walk(ixs[1..])
  }

  /** One account of the walk in the preimage: its 32 bytes, then 1 for a signer plus 2 for a writable one. */
  ghost predicate HashedAt(list: Listing, b: byte, entry: seq<byte>) {
    && |entry| == 33 && Names(list, b, entry[..32])
    && entry[32] == (if entry[..32] in list.signers then 1 else 0) + (if entry[..32] in list.writable then 2 else 0)
  }

  ghost predicate HashedAll(list: Listing, walk: seq<byte>, p: seq<byte>) {
    |p| == 33 * |walk| && forall j :: 0 <= j < |walk| ==> HashedAt(list, walk[j], p[33 * j..33 * j + 33])
  }

  lemma HashedOne(list: Listing, b: byte)
    ensures HashEntry(list, b % 128).Some? <==> b % 128 < |list.keys|
    ensures HashEntry(list, b % 128).Some? ==> HashedAll(list, [b], HashEntry(list, b % 128).value)
  {
    if b % 128 < |list.keys| {
      var e := HashEntry(list, b % 128).value;
      assert e[..32] == list.keys[b % 128] && e[0..33] == e;
    }
  }

  lemma HashedJoin(list: Listing, u: seq<byte>, p: seq<byte>, v: seq<byte>, q: seq<byte>)
    requires HashedAll(list, u, p) && HashedAll(list, v, q)
    ensures HashedAll(list, u + v, p + q)
  {
    var w, r := u + v, p + q;
    forall j | 0 <= j < |w| ensures HashedAt(list, w[j], r[33 * j..33 * j + 33]) {
      if j < |u| {
        assert r[33 * j..33 * j + 33] == p[33 * j..33 * j + 33];
      } else {
        var i := j - |u|;
        assert r[33 * j..33 * j + 33] == q[33 * i..33 * i + 33];
      }
    }
  }

  lemma ListedJoin(list: Listing, u: seq<byte>, v: seq<byte>)
    ensures AllListed(list, u + v) <==> AllListed(list, u) && AllListed(list, v)
  {
    var w := u + v;
    if AllListed(list, w) {
      forall j | 0 <= j < |u| ensures u[j] % 128 < |list.keys| {
        assert w[j] == u[j];
      }
      forall j | 0 <= j < |v| ensures v[j] % 128 < |list.keys| {
        assert w[|u| + j] == v[j];
      }
    }
  }

  lemma {:induction false} AccountsHashed(accounts: seq<byte>, list: Listing)
    ensures AccountEntries(accounts, list).Some? <==> AllListed(list, accounts)
    ensures AccountEntries(accounts, list).Some? ==> HashedAll(list, accounts, AccountEntries(accounts, list).value)
  {
    if accounts != [] {
      var b, rest := accounts[0], accounts[1..];
      assert accounts == [b] + rest;
      AccountsHashed(rest, list);
      HashedOne(list, b);
      ListedJoin(list, [b], rest);
      assert AllListed(list, [b]) <==> [b][0] % 128 < |list.keys|;
      if AccountEntries(accounts, list).Some? {
        HashedJoin(list, [b], HashEntry(list, b % 128).value, rest, AccountEntries(rest, list).value);
      }
    }
  }

  lemma InstructionHashed(ix: CompactInstruction, list: Listing)
    ensures InstructionEntries(ix, list).Some? <==> AllListed(list, [ix.programIndex] + ix.accounts)
    ensures InstructionEntries(ix, list).Some? ==>
              HashedAll(list, [ix.programIndex] + ix.accounts, InstructionEntries(ix, list).value)
  {
    var b := ix.programIndex;
    AccountsHashed(ix.accounts, list);
    HashedOne(list, b);
    ListedJoin(list, [b], ix.accounts);
    assert AllListed(list, [b]) <==> [b][0] % 128 < |list.keys|;
    if InstructionEntries(ix, list).Some? {
      HashedJoin(list, [b], HashEntry(list, b % 128).value, ix.accounts, AccountEntries(ix.accounts, list).value);
    }
  }

  /** The hashed preimage, account by account; it exists exactly when every index is listed. */
  lemma {:induction false} PreimageExactly(ixs: seq<CompactInstruction>, list: Listing)
    ensures Preimage(ixs, list).Some? <==> AllListed(list, Walk(ixs))
    ensures Preimage(ixs, list).Some? ==> HashedAll(list, Walk(ixs), Preimage(ixs, list).value)
  {
    if ixs != [] {
      var first := [ixs[0].programIndex] + ixs[0].accounts;
      PreimageExactly(ixs[1..], list);
      InstructionHashed(ixs[0], list);
      ListedJoin(list, first, Walk(ixs[1..]));
      if Preimage(ixs, list).Some? {
        HashedJoin(list, first, InstructionEntries(ixs[0], list).value, Walk(ixs[1..]), Preimage(ixs[1..], list).value);
      }
    }
  }
}
