/**
 The clientDataJSON scanner (`program/src/auth/secp256r1/webauthn.rs`): a hand-written,
 depth-tracking walk that returns the first top-level string member of a given name. It is
 proved against a JSON concrete syntax tree and its printer (RFC 8259; the client data of
 section 5.8.1 of W3C Web Authentication Level 2).
 */
module ClientData {
  import opened Bytes

  const QUOTE: byte := 34
  const BACKSLASH: byte := 92
  const LBRACE: byte := 123
  const RBRACE: byte := 125
  const LBRACKET: byte := 91
  const RBRACKET: byte := 93
  const COMMA: byte := 44
  const COLON: byte := 58

  /** `u8::is_ascii_whitespace`: space, tab, line feed, form feed, carriage return. */
  predicate IsWs(b: byte) {
    b == 32 || b == 9 || b == 10 || b == 12 || b == 13
  }

  // ---------------------------------------------------------------------------
  // The walk, as functions of what is left to read
  // ---------------------------------------------------------------------------

  function SkipWs(s: seq<byte>): (r: seq<byte>)
    ensures |r| <= |s|
  {
    if s != [] && IsWs(s[0]) then SkipWs(s[1..]) else s
  }

  /** A string body up to its closing quote; refuses a backslash or a missing quote. */
  function TakeString(s: seq<byte>): (r: Option<(seq<byte>, seq<byte>)>)
    ensures r.Some? ==> |r.value.1| < |s|
  {
    if s == [] || s[0] == BACKSLASH then None
    else if s[0] == QUOTE then Some(([], s[1..]))
    else match TakeString(s[1..])
      case None => None
      case Some((v, rest)) => Some(([s[0]] + v, rest))
  }

  /** Past a string body; a missing quote runs to the end instead of failing. */
  function SkipString(s: seq<byte>): (r: Option<seq<byte>>)
    ensures r.Some? ==> |r.value| <= |s|
  {
    if s == [] then Some([])
    else if s[0] == QUOTE then Some(s[1..])
    else if s[0] == BACKSLASH then None
    else SkipString(s[1..])
  }

  /** Past a value that is not a string, to the comma or bracket that ends it at nesting zero. */
  function SkipValue(s: seq<byte>, nest: nat): (r: Option<seq<byte>>)
    ensures r.Some? ==> |r.value| <= |s|
    decreases |s|
  {
    if s == [] then Some([])
    else if s[0] == QUOTE then
      match SkipString(s[1..])
      case None => None
      case Some(rest) => SkipValue(rest, nest)
    else if s[0] == LBRACE || s[0] == LBRACKET then SkipValue(s[1..], nest + 1)
    else if s[0] == RBRACE || s[0] == RBRACKET then
      if nest == 0 then Some(s) else SkipValue(s[1..], nest - 1)
    else if s[0] == COMMA && nest == 0 then Some(s)
    else SkipValue(s[1..], nest)
  }

  /** From a member's opening quote: its name and the first byte of its value on. */
  function TakeName(s: seq<byte>): (r: Option<(seq<byte>, seq<byte>)>)
    ensures r.Some? ==> r.value.1 != [] && |r.value.1| < |s|
  {
    match TakeString(s)
    case None => None
    case Some((key, rest)) =>
      var colon := SkipWs(rest);
      if colon == [] || colon[0] != COLON then None
      else
        var value := SkipWs(colon[1..]);
        if value == [] then None else Some((key, value))
  }

  function PastValue(s: seq<byte>): (r: Option<seq<byte>>)
    requires s != []
    ensures r.Some? ==> |r.value| <= |s|
  {
    if s[0] == QUOTE then SkipString(s[1..]) else SkipValue(s, 0)
  }

  function Scan(s: seq<byte>, depth: nat, name: seq<byte>): Option<seq<byte>>
    decreases |s|
  {
    if s == [] then None
    else if s[0] == LBRACE then Scan(s[1..], depth + 1, name)
    else if s[0] == RBRACE then
      if depth == 0 then None else Scan(s[1..], depth - 1, name)
    else if depth == 1 && s[0] == QUOTE then
      match TakeName(s[1..])
      case None => None
      case Some((key, value)) =>
        if key == name then
          if value[0] != QUOTE then None
          else match TakeString(value[1..])
            case None => None
            case Some((found, _)) => Some(found)
        else match PastValue(value)
          case None => None
          case Some(rest) => Scan(rest, depth, name)
    else Scan(s[1..], depth, name)
  }

  function Extract(json: seq<byte>, name: seq<byte>): Option<seq<byte>> {
    var s := SkipWs(json);
    if s == [] || s[0] != LBRACE then None else Scan(s, 0, name)
  }

  // ---------------------------------------------------------------------------
  // The source's loops
  // ---------------------------------------------------------------------------

  method SkipWhitespace(json: seq<byte>, from: nat) returns (cursor: nat)
    requires from <= |json|
    ensures from <= cursor <= |json| && json[cursor..] == SkipWs(json[from..])
    ensures cursor < |json| ==> !IsWs(json[cursor])
  {
    cursor := from;
    while cursor < |json| && IsWs(json[cursor])
      invariant from <= cursor <= |json|
      invariant SkipWs(json[from..]) == SkipWs(json[cursor..])
    {
      cursor := cursor + 1;
    }
  }

  /** The position of the quote that closes a string body starting at `from`. */
  method FindQuote(json: seq<byte>, from: nat) returns (end: Option<nat>)
    requires from <= |json|
    ensures end.None? ==> TakeString(json[from..]) == None
    ensures end.Some? ==>
              from <= end.value < |json| &&
                  TakeString(json[from..]) == Some((json[from..end.value], json[end.value + 1..]))
  {
    var e := from;
    assert json[from..from] == [];
    forall v: seq<byte> ensures json[from..from] + v == v {
    }
    while e < |json|
      invariant from <= e <= |json|
      invariant TakeString(json[from..]) ==
                match TakeString(json[e..]) case None => None case Some((v, rest)) => Some((json[from..e] + v, rest))
    {
      assert json[e..][1..] == json[e + 1..];
      if json[e] == QUOTE {
        assert json[from..e] + [] == json[from..e];
        return Some(e);
      }
      if json[e] == BACKSLASH {
        return None;
      }
      forall v: seq<byte> ensures json[from..e] + ([json[e]] + v) == json[from..e + 1] + v {
      }
      e := e + 1;
    }
    return None;
  }

  method PastString(json: seq<byte>, from: nat) returns (cursor: Option<nat>)
    requires from <= |json|
    ensures cursor.None? ==> SkipString(json[from..]) == None
    ensures cursor.Some? ==> from <= cursor.value <= |json| && SkipString(json[from..]) == Some(json[cursor.value..])
  {
    var c := from;
    while c < |json|
      invariant from <= c <= |json|
      invariant SkipString(json[from..]) == SkipString(json[c..])
    {
      assert json[c..][1..] == json[c + 1..];
      if json[c] == QUOTE {
        return Some(c + 1);
      }
      if json[c] == BACKSLASH {
        return None;
      }
      c := c + 1;
    }
    return Some(c);
  }

  /** The nesting loop over a number, literal, object or array. */
  method PastNested(json: seq<byte>, from: nat) returns (cursor: Option<nat>)
    requires from <= |json|
    ensures cursor.None? ==> SkipValue(json[from..], 0) == None
    ensures cursor.Some? ==> from <= cursor.value <= |json| && SkipValue(json[from..], 0) == Some(json[cursor.value..])
  {
    var c, nest := from, 0;
    while c < |json|
      invariant from <= c <= |json|
      invariant SkipValue(json[from..], 0) == SkipValue(json[c..], nest)
      decreases |json| - c
    {
      assert json[c..][1..] == json[c + 1..];
      var b := json[c];
      if b == QUOTE {
        var next := PastString(json, c + 1);
        if next.None? {
          return None;
        }
        c := next.value;
      } else {
        if b == LBRACE || b == LBRACKET {
          nest := nest + 1;
        } else if b == RBRACE || b == RBRACKET {
          if nest == 0 {
            break;
          }
          nest := nest - 1;
        } else if b == COMMA && nest == 0 {
          break;
        }
        c := c + 1;
      }
    }
    return Some(c);
  }

  /** A member's name, its colon and the start of its value. */
  method ReadName(json: seq<byte>, from: nat) returns (r: Option<(seq<byte>, nat)>)
    requires from <= |json|
    ensures r.None? ==> TakeName(json[from..]) == None
    ensures r.Some? ==> from < r.value.1 < |json| && TakeName(json[from..]) == Some((r.value.0, json[r.value.1..]))
  {
    var end := FindQuote(json, from);
    if end.None? {
      return None;
    }
    var cursor := SkipWhitespace(json, end.value + 1);
    if cursor >= |json| || json[cursor] != COLON {
      return None;
    }
    assert json[cursor..][1..] == json[cursor + 1..];
    var value := SkipWhitespace(json, cursor + 1);
    if value >= |json| {
      return None;
    }
    return Some((json[from..end.value], value));
  }

  /** Where a top-level member leaves the walk: with the answer, or past the member. */
  datatype Step = Done(answer: Option<seq<byte>>) | Next(cursor: nat)

  /** A member's value: the answer when the name matches, otherwise skipped. */
  method AtValue(json: seq<byte>, key: seq<byte>, value: nat, name: seq<byte>) returns (step: Step)
    requires value < |json|
    ensures step.Done? && (key != name || json[value] != QUOTE || TakeString(json[value + 1..]).None?) ==>
              step.answer == None
    ensures step.Done? && key == name && json[value] == QUOTE && TakeString(json[value + 1..]).Some? ==>
              step.answer == Some(TakeString(json[value + 1..]).value.0)
    ensures step.Next? ==>
              key != name && value <= step.cursor <= |json| && PastValue(json[value..]) == Some(json[step.cursor..])
    ensures key != name && step.Done? ==> PastValue(json[value..]) == None
  {
    assert json[value..][1..] == json[value + 1..];
    if key == name {
      if json[value] != QUOTE {
        return Done(None);
      }
      var end := FindQuote(json, value + 1);
      if end.None? {
        return Done(None);
      }
      return Done(Some(json[value + 1..end.value]));
    }
    var next;
    if json[value] == QUOTE {
      next := PastString(json, value + 1);
    } else {
      next := PastNested(json, value);
    }
    if next.None? {
      return Done(None);
    }
    return Next(next.value);
  }

  method AtName(json: seq<byte>, cursor: nat, name: seq<byte>) returns (step: Step)
    requires cursor < |json| && json[cursor] == QUOTE
    ensures step.Done? ==> Scan(json[cursor..], 1, name) == step.answer
    ensures step.Next? ==>
              cursor < step.cursor <= |json| && Scan(json[cursor..], 1, name) == Scan(json[step.cursor..], 1, name)
  {
    assert json[cursor..][1..] == json[cursor + 1..];
    var member := ReadName(json, cursor + 1);
    if member.None? {
      return Done(None);
    }
    assert json[member.value.1..][1..] == json[member.value.1 + 1..];
    step := AtValue(json, member.value.0, member.value.1, name);
  }

  /** `extract_top_level_string_field`. */
  method ExtractTopLevelStringField(json: seq<byte>, name: seq<byte>) returns (r: Option<seq<byte>>)
    ensures r == Extract(json, name)
  {
    assert json[0..] == json;
    var start := SkipWhitespace(json, 0);
    if start >= |json| || json[start] != LBRACE {
      return None;
    }
    var depth, cursor := 0, start;
    while cursor < |json|
      invariant start <= cursor <= |json|
      invariant Scan(json[cursor..], depth, name) == Extract(json, name)
      decreases |json| - cursor
    {
      assert json[cursor..][1..] == json[cursor + 1..];
      var b := json[cursor];
      if b == LBRACE {
        depth, cursor := depth + 1, cursor + 1;
      } else if b == RBRACE {
        if depth == 0 {
          return None;
        }
        depth, cursor := depth - 1, cursor + 1;
      } else if depth == 1 && b == QUOTE {
        var step := AtName(json, cursor, name);
        if step.Done? {
          return step.answer;
        }
        cursor := step.cursor;
      } else {
        cursor := cursor + 1;
      }
    }
    return None;
  }

  // ---------------------------------------------------------------------------
  // JSON, written out
  // ---------------------------------------------------------------------------

  /** JSON text with its white space. Lists may also end in a comma, which JSON does not need. */
  datatype Value = Str(chars: seq<byte>) | Atom(text: seq<byte>) | Arr(elems: Elems) | Obj(members: Members)

  datatype Elems =
    | NoElems(ws: seq<byte>)
    | LastElem(ws: seq<byte>, value: Value, after: seq<byte>)
    | Elem(ws: seq<byte>, value: Value, after: seq<byte>, rest: Elems)

  datatype Members =
    | NoMembers(ws: seq<byte>)
    | LastMember(ws: seq<byte>, key: seq<byte>, beforeColon: seq<byte>, afterColon: seq<byte>, value: Value,
        after: seq<byte>)
    | Member(ws: seq<byte>, key: seq<byte>, beforeColon: seq<byte>, afterColon: seq<byte>, value: Value,
        after: seq<byte>, rest: Members)

  /** A whole document: one object with white space around it. */
  datatype Document = Document(before: seq<byte>, members: Members, after: seq<byte>)

  function PrintValue(v: Value): seq<byte> {
    match v
    case Str(chars) => [QUOTE] + chars + [QUOTE]
    case Atom(text) => text
    case Arr(elems) => [LBRACKET] + PrintElems(elems) + [RBRACKET]
    case Obj(members) => [LBRACE] + PrintMembers(members) + [RBRACE]
  }

  function PrintElems(es: Elems): seq<byte> {
    match es
    case NoElems(ws) => ws
    case LastElem(ws, v, after) => ws + PrintValue(v) + after
    case Elem(ws, v, after, rest) => ws + PrintValue(v) + after + [COMMA] + PrintElems(rest)
  }

  function PrintName(ws: seq<byte>, key: seq<byte>, beforeColon: seq<byte>, afterColon: seq<byte>): seq<byte> {
    ws + [QUOTE] + key + [QUOTE] + beforeColon + [COLON] + afterColon
  }

  function PrintMembers(ms: Members): seq<byte> {
    match ms
    case NoMembers(ws) => ws
    case LastMember(ws, key, bc, ac, v, after) => PrintName(ws, key, bc, ac) + PrintValue(v) + after
    case Member(ws, key, bc, ac, v, after, rest) =>
      PrintName(ws, key, bc, ac) + PrintValue(v) + after + [COMMA] + PrintMembers(rest)
  }

  function Print(d: Document): seq<byte> {
    d.before + [LBRACE] + PrintMembers(d.members) + [RBRACE] + d.after
  }

  /** Space, tab, line feed, form feed and carriage return. */
  predicate Blank(s: seq<byte>) {
    forall i :: 0 <= i < |s| ==> s[i] in {32, 9, 10, 12, 13}
  }

  /** A string body the scanner accepts: no quote and no escape. */
  predicate Plain(s: seq<byte>) {
    forall i :: 0 <= i < |s| ==> s[i] != QUOTE && s[i] != BACKSLASH
  }

  /** Some byte is a backslash, and no quote comes before it. */
  predicate Escaped(s: seq<byte>) {
    exists i :: 0 <= i < |s| && s[i] == BACKSLASH && forall j :: 0 <= j < i ==> s[j] != QUOTE
  }

  /** The body of any JSON string: a quote in it comes after the backslash that escapes it. */
  predicate Body(s: seq<byte>) {
    Plain(s) || Escaped(s)
  }

  /** A number or literal: at least one byte, none of them structural or blank. */
  predicate IsAtom(s: seq<byte>) {
    s != [] && forall i :: 0 <= i < |s| ==> !IsStructural(s[i]) && !IsWs(s[i])
  }

  predicate IsStructural(b: byte) {
    b == QUOTE || b == LBRACE || b == RBRACE || b == LBRACKET || b == RBRACKET || b == COMMA
  }

  ghost predicate ValueOk(v: Value) {
    match v
    case Str(chars) => Plain(chars)
    case Atom(text) => IsAtom(text)
    case Arr(elems) => ElemsOk(elems)
    case Obj(members) => MembersOk(members)
  }

  ghost predicate ElemsOk(es: Elems) {
    match es
    case NoElems(ws) => Blank(ws)
    case LastElem(ws, v, after) => Blank(ws) && ValueOk(v) && Blank(after)
    case Elem(ws, v, after, rest) => Blank(ws) && ValueOk(v) && Blank(after) && ElemsOk(rest)
  }

  ghost predicate NameOk(ws: seq<byte>, key: seq<byte>, bc: seq<byte>, ac: seq<byte>) {
    Blank(ws) && Plain(key) && Blank(bc) && Blank(ac)
  }

  ghost predicate MembersOk(ms: Members) {
    match ms
    case NoMembers(ws) => Blank(ws)
    case LastMember(ws, key, bc, ac, v, after) => NameOk(ws, key, bc, ac) && ValueOk(v) && Blank(after)
    case Member(ws, key, bc, ac, v, after, rest) =>
      NameOk(ws, key, bc, ac) && ValueOk(v) && Blank(after) && MembersOk(rest)
  }

  ghost predicate DocumentOk(d: Document) {
    Blank(d.before) && MembersOk(d.members) && Blank(d.after)
  }

  // The same with any string bodies, escapes included.

  ghost predicate ValueText(v: Value) {
    match v
    case Str(chars) => Body(chars)
    case Atom(text) => IsAtom(text)
    case Arr(elems) => ElemsText(elems)
    case Obj(members) => MembersText(members)
  }

  ghost predicate ElemsText(es: Elems) {
    match es
    case NoElems(ws) => Blank(ws)
    case LastElem(ws, v, after) => Blank(ws) && ValueText(v) && Blank(after)
    case Elem(ws, v, after, rest) => Blank(ws) && ValueText(v) && Blank(after) && ElemsText(rest)
  }

  ghost predicate NameText(ws: seq<byte>, key: seq<byte>, bc: seq<byte>, ac: seq<byte>) {
    Blank(ws) && Body(key) && Blank(bc) && Blank(ac)
  }

  ghost predicate MembersText(ms: Members) {
    match ms
    case NoMembers(ws) => Blank(ws)
    case LastMember(ws, key, bc, ac, v, after) => NameText(ws, key, bc, ac) && ValueText(v) && Blank(after)
    case Member(ws, key, bc, ac, v, after, rest) =>
      NameText(ws, key, bc, ac) && ValueText(v) && Blank(after) && MembersText(rest)
  }

  ghost predicate DocumentText(d: Document) {
    Blank(d.before) && MembersText(d.members) && Blank(d.after)
  }

  /** A string somewhere in the value, however deep, name or not, holds a backslash. */
  ghost predicate HoldsEscape(v: Value) {
    match v
    case Str(chars) => BACKSLASH in chars
    case Atom(text) => false
    case Arr(elems) => ElemsHoldEscape(elems)
    case Obj(members) => MembersHoldEscape(members)
  }

  ghost predicate ElemsHoldEscape(es: Elems) {
    match es
    case NoElems(_) => false
    case LastElem(_, v, _) => HoldsEscape(v)
    case Elem(_, v, _, rest) => HoldsEscape(v) || ElemsHoldEscape(rest)
  }

  ghost predicate MembersHoldEscape(ms: Members) {
    match ms
    case NoMembers(_) => false
    case LastMember(_, key, _, _, v, _) => BACKSLASH in key || HoldsEscape(v)
    case Member(_, key, _, _, v, _, rest) => BACKSLASH in key || HoldsEscape(v) || MembersHoldEscape(rest)
  }

  /**
   What the scanner answers on any object: the string member of the name, unless an escape shows
   in a top-level name, in the string itself, or anywhere in what comes before it.
   */
  ghost function Answer(ms: Members, name: seq<byte>): Option<seq<byte>> {
    match ms
    case NoMembers(_) => None
    case LastMember(_, key, _, _, v, _) =>
      if BACKSLASH in key || key != name || !v.Str? || BACKSLASH in v.chars then None else Some(v.chars)
    case Member(_, key, _, _, v, _, rest) =>
      if BACKSLASH in key then None
      else if key == name then if v.Str? && BACKSLASH !in v.chars then Some(v.chars) else None
      else if HoldsEscape(v) then None
      else Answer(rest, name)
  }

  /** What the scanner is for: the first member of that name, if it is a string. */
  function Lookup(ms: Members, name: seq<byte>): Option<seq<byte>> {
    match ms
    case NoMembers(_) => None
    case LastMember(_, key, _, _, v, _) => if key == name then StringOf(v) else None
    case Member(_, key, _, _, v, _, rest) => if key == name then StringOf(v) else Lookup(rest, name)
  }

  function StringOf(v: Value): Option<seq<byte>> {
    if v.Str? then Some(v.chars) else None
  }

  // ---------------------------------------------------------------------------
  // Skipping what was printed
  // ---------------------------------------------------------------------------

  lemma {:induction false} SkipWsBlank(ws: seq<byte>, post: seq<byte>)
    requires Blank(ws)
    ensures SkipWs(ws + post) == SkipWs(post)
  {
    if ws == [] {
      assert ws + post == post;
    } else {
      assert (ws + post)[1..] == ws[1..] + post;
      SkipWsBlank(ws[1..], post);
    }
  }

  lemma {:induction false} SkipStringPlain(s: seq<byte>, post: seq<byte>)
    requires Plain(s)
    ensures SkipString(s + ([QUOTE] + post)) == Some(post)
  {
    if s == [] {
      assert s + ([QUOTE] + post) == [QUOTE] + post;
    } else {
      assert (s + ([QUOTE] + post))[1..] == s[1..] + ([QUOTE] + post);
      SkipStringPlain(s[1..], post);
    }
  }

  lemma {:induction false} TakeStringPlain(s: seq<byte>, post: seq<byte>)
    requires Plain(s)
    ensures TakeString(s + ([QUOTE] + post)) == Some((s, post))
  {
    if s == [] {
      assert s + ([QUOTE] + post) == [QUOTE] + post;
    } else {
      assert (s + ([QUOTE] + post))[1..] == s[1..] + ([QUOTE] + post);
      TakeStringPlain(s[1..], post);
      assert [s[0]] + s[1..] == s;
    }
  }

  /** Bytes with no structure pass by at any nesting. */
  lemma {:induction false} SkipFlat(s: seq<byte>, post: seq<byte>, nest: nat)
    requires forall i :: 0 <= i < |s| ==> !IsStructural(s[i])
    ensures SkipValue(s + post, nest) == SkipValue(post, nest)
  {
    if s == [] {
      assert s + post == post;
    } else {
      assert (s + post)[1..] == s[1..] + post;
      SkipFlat(s[1..], post, nest);
    }
  }

  lemma BlankIsFlat(s: seq<byte>)
    requires Blank(s)
    ensures forall i :: 0 <= i < |s| ==> !IsStructural(s[i])
  {
  }

  /** One byte of the walk. */
  lemma SkipOne(b: byte, post: seq<byte>, nest: nat)
    ensures (b == LBRACE || b == LBRACKET) ==> SkipValue([b] + post, nest) == SkipValue(post, nest + 1)
    ensures (b == RBRACE || b == RBRACKET) && nest > 0 ==> SkipValue([b] + post, nest) == SkipValue(post, nest - 1)
    ensures b == COMMA && nest > 0 ==> SkipValue([b] + post, nest) == SkipValue(post, nest)
    ensures (b == COMMA || b == RBRACE || b == RBRACKET) && nest == 0 ==>
              SkipValue([b] + post, nest) == Some([b] + post)
  {
    assert ([b] + post)[1..] == post;
  }

  lemma SkipQuoted(chars: seq<byte>, post: seq<byte>, nest: nat)
    requires Plain(chars)
    ensures SkipValue([QUOTE] + chars + [QUOTE] + post, nest) == SkipValue(post, nest)
  {
    var s := [QUOTE] + chars + [QUOTE] + post;
    assert s[1..] == chars + ([QUOTE] + post);
    SkipStringPlain(chars, post);
  }

  /** A printed value is passed whole, whatever braces, brackets or commas its strings hold. */
  lemma {:induction false} SkipPrintedValue(v: Value, post: seq<byte>, nest: nat)
    requires ValueOk(v)
    ensures SkipValue(PrintValue(v) + post, nest) == SkipValue(post, nest)
    decreases v, 0
  {
    match v {
      case Str(chars) =>
        SkipQuoted(chars, post, nest);
      case Atom(text) =>
        SkipFlat(text, post, nest);
      case Arr(elems) =>
        assert PrintValue(v) + post == [LBRACKET] + (PrintElems(elems) + ([RBRACKET] + post));
        SkipOne(LBRACKET, PrintElems(elems) + ([RBRACKET] + post), nest);
        SkipPrintedElems(elems, [RBRACKET] + post, nest + 1);
        SkipOne(RBRACKET, post, nest + 1);
      case Obj(members) =>
        assert PrintValue(v) + post == [LBRACE] + (PrintMembers(members) + ([RBRACE] + post));
        SkipOne(LBRACE, PrintMembers(members) + ([RBRACE] + post), nest);
        SkipPrintedMembers(members, [RBRACE] + post, nest + 1);
        SkipOne(RBRACE, post, nest + 1);
    }
  }

  /** White space, a value, white space. */
  lemma {:induction false} SkipPadded(ws: seq<byte>, v: Value, after: seq<byte>, post: seq<byte>, nest: nat)
    requires Blank(ws) && ValueOk(v) && Blank(after)
    ensures SkipValue(ws + (PrintValue(v) + (after + post)), nest) == SkipValue(post, nest)
    decreases v, 1
  {
    BlankIsFlat(ws);
    BlankIsFlat(after);
    SkipFlat(ws, PrintValue(v) + (after + post), nest);
    SkipPrintedValue(v, after + post, nest);
    SkipFlat(after, post, nest);
  }

  lemma {:induction false} SkipPrintedElems(es: Elems, post: seq<byte>, nest: nat)
    requires ElemsOk(es) && nest > 0
    ensures SkipValue(PrintElems(es) + post, nest) == SkipValue(post, nest)
    decreases es
  {
    match es {
      case NoElems(ws) =>
        BlankIsFlat(ws);
        SkipFlat(ws, post, nest);
      case LastElem(ws, v, after) =>
        assert PrintElems(es) + post == ws + (PrintValue(v) + (after + post));
        SkipPadded(ws, v, after, post, nest);
      case Elem(ws, v, after, rest) =>
        var tail := [COMMA] + (PrintElems(rest) + post);
        assert PrintElems(es) + post == ws + (PrintValue(v) + (after + tail));
        SkipPadded(ws, v, after, tail, nest);
        SkipOne(COMMA, PrintElems(rest) + post, nest);
        SkipPrintedElems(rest, post, nest);
    }
  }

  lemma SkipPrintedName(ws: seq<byte>, key: seq<byte>, bc: seq<byte>, ac: seq<byte>, post: seq<byte>, nest: nat)
    requires NameOk(ws, key, bc, ac)
    ensures SkipValue(PrintName(ws, key, bc, ac) + post, nest) == SkipValue(post, nest)
  {
    var flat := bc + [COLON] + ac;
    assert forall i :: 0 <= i < |flat| ==> !IsStructural(flat[i]);
    var quoted := [QUOTE] + key + [QUOTE];
    assert PrintName(ws, key, bc, ac) + post == ws + (quoted + (flat + post));
    BlankIsFlat(ws);
    SkipFlat(ws, quoted + (flat + post), nest);
    SkipQuoted(key, flat + post, nest);
    SkipFlat(flat, post, nest);
  }

  lemma {:induction false} SkipPrintedMembers(ms: Members, post: seq<byte>, nest: nat)
    requires MembersOk(ms) && nest > 0
    ensures SkipValue(PrintMembers(ms) + post, nest) == SkipValue(post, nest)
    decreases ms
  {
    match ms {
      case NoMembers(ws) =>
        BlankIsFlat(ws);
        SkipFlat(ws, post, nest);
      case LastMember(ws, key, bc, ac, v, after) =>
        var body := PrintValue(v) + (after + post);
        assert PrintMembers(ms) + post == PrintName(ws, key, bc, ac) + body;
        SkipPrintedName(ws, key, bc, ac, body, nest);
        SkipPrintedValue(v, after + post, nest);
        BlankIsFlat(after);
        SkipFlat(after, post, nest);
      case Member(ws, key, bc, ac, v, after, rest) =>
        var tail := [COMMA] + (PrintMembers(rest) + post);
        var body := PrintValue(v) + (after + tail);
        assert PrintMembers(ms) + post == PrintName(ws, key, bc, ac) + body;
        SkipPrintedName(ws, key, bc, ac, body, nest);
        SkipPrintedValue(v, after + tail, nest);
        BlankIsFlat(after);
        SkipFlat(after, tail, nest);
        SkipOne(COMMA, PrintMembers(rest) + post, nest);
        SkipPrintedMembers(rest, post, nest);
    }
  }

  // ---------------------------------------------------------------------------
  // No escape gets by
  // ---------------------------------------------------------------------------

  lemma {:induction false} EscapeRefused(s: seq<byte>, post: seq<byte>)
    requires Escaped(s)
    ensures TakeString(s + post) == None && SkipString(s + post) == None
  {
    var i :| 0 <= i < |s| && s[i] == BACKSLASH && forall j :: 0 <= j < i ==> s[j] != QUOTE;
    if i > 0 {
      assert (s + post)[1..] == s[1..] + post;
      assert s[1..][i - 1] == BACKSLASH && forall j :: 0 <= j < i - 1 ==> s[1..][j] == s[j + 1];
      EscapeRefused(s[1..], post);
    }
  }

  lemma BodyIsPlain(s: seq<byte>)
    requires Body(s)
    ensures BACKSLASH in s ==> Escaped(s)
    ensures BACKSLASH !in s ==> Plain(s)
  {
  }

  lemma {:induction false} NoEscapeOk(v: Value)
    requires ValueText(v) && !HoldsEscape(v)
    ensures ValueOk(v)
    decreases v
  {
    match v {
      case Str(chars) => BodyIsPlain(chars);
      case Atom(_) =>
      case Arr(elems) => NoEscapeElems(elems);
      case Obj(members) => NoEscapeMembers(members);
    }
  }

  lemma {:induction false} NoEscapeElems(es: Elems)
    requires ElemsText(es) && !ElemsHoldEscape(es)
    ensures ElemsOk(es)
    decreases es
  {
    match es {
      case NoElems(_) =>
      case LastElem(_, v, _) => NoEscapeOk(v);
      case Elem(_, v, _, rest) =>
        NoEscapeOk(v);
        NoEscapeElems(rest);
    }
  }

  lemma {:induction false} NoEscapeMembers(ms: Members)
    requires MembersText(ms) && !MembersHoldEscape(ms)
    ensures MembersOk(ms)
    decreases ms
  {
    match ms {
      case NoMembers(_) =>
      case LastMember(_, key, _, _, v, _) =>
        BodyIsPlain(key);
        NoEscapeOk(v);
      case Member(_, key, _, _, v, _, rest) =>
        BodyIsPlain(key);
        NoEscapeOk(v);
        NoEscapeMembers(rest);
    }
  }

  lemma SkipEscapedQuoted(chars: seq<byte>, post: seq<byte>, nest: nat)
    requires Escaped(chars)
    ensures SkipValue([QUOTE] + (chars + post), nest) == None
  {
    assert ([QUOTE] + (chars + post))[1..] == chars + post;
    EscapeRefused(chars, post);
  }

  /** A value that holds an escape, at any depth, is not passed. */
  lemma {:induction false} SkipRefusesEscape(v: Value, post: seq<byte>, nest: nat)
    requires ValueText(v) && HoldsEscape(v)
    ensures SkipValue(PrintValue(v) + post, nest) == None
    decreases v
  {
    match v {
      case Str(chars) =>
        BodyIsPlain(chars);
        assert PrintValue(v) + post == [QUOTE] + (chars + ([QUOTE] + post));
        SkipEscapedQuoted(chars, [QUOTE] + post, nest);
      case Arr(elems) =>
        assert PrintValue(v) + post == [LBRACKET] + (PrintElems(elems) + ([RBRACKET] + post));
        SkipOne(LBRACKET, PrintElems(elems) + ([RBRACKET] + post), nest);
        SkipRefusesElems(elems, [RBRACKET] + post, nest + 1);
      case Obj(members) =>
        assert PrintValue(v) + post == [LBRACE] + (PrintMembers(members) + ([RBRACE] + post));
        SkipOne(LBRACE, PrintMembers(members) + ([RBRACE] + post), nest);
        SkipRefusesMembers(members, [RBRACE] + post, nest + 1);
    }
  }

  lemma {:induction false} SkipRefusesElems(es: Elems, post: seq<byte>, nest: nat)
    requires ElemsText(es) && ElemsHoldEscape(es) && nest > 0
    ensures SkipValue(PrintElems(es) + post, nest) == None
    decreases es
  {
    var tail := if es.Elem? then [COMMA] + (PrintElems(es.rest) + post) else post;
    assert PrintElems(es) + post == es.ws + (PrintValue(es.value) + (es.after + tail));
    BlankIsFlat(es.ws);
    SkipFlat(es.ws, PrintValue(es.value) + (es.after + tail), nest);
    if HoldsEscape(es.value) {
      SkipRefusesEscape(es.value, es.after + tail, nest);
    } else {
      NoEscapeOk(es.value);
      SkipPrintedValue(es.value, es.after + tail, nest);
      BlankIsFlat(es.after);
      SkipFlat(es.after, tail, nest);
      SkipOne(COMMA, PrintElems(es.rest) + post, nest);
      SkipRefusesElems(es.rest, post, nest);
    }
  }

  lemma SkipRefusesName(ws: seq<byte>, key: seq<byte>, bc: seq<byte>, ac: seq<byte>, post: seq<byte>, nest: nat)
    requires Blank(ws) && Escaped(key)
    ensures SkipValue(PrintName(ws, key, bc, ac) + post, nest) == None
  {
    var tail := [QUOTE] + bc + [COLON] + ac + post;
    assert PrintName(ws, key, bc, ac) + post == ws + ([QUOTE] + (key + tail));
    BlankIsFlat(ws);
    SkipFlat(ws, [QUOTE] + (key + tail), nest);
    SkipEscapedQuoted(key, tail, nest);
  }

  lemma {:induction false} SkipRefusesMembers(ms: Members, post: seq<byte>, nest: nat)
    requires MembersText(ms) && MembersHoldEscape(ms) && nest > 0
    ensures SkipValue(PrintMembers(ms) + post, nest) == None
    decreases ms
  {
    var tail := if ms.Member? then [COMMA] + (PrintMembers(ms.rest) + post) else post;
    var body := PrintValue(ms.value) + (ms.after + tail);
    assert PrintMembers(ms) + post == PrintName(ms.ws, ms.key, ms.beforeColon, ms.afterColon) + body;
    BodyIsPlain(ms.key);
    if BACKSLASH in ms.key {
      SkipRefusesName(ms.ws, ms.key, ms.beforeColon, ms.afterColon, body, nest);
    } else {
      SkipPrintedName(ms.ws, ms.key, ms.beforeColon, ms.afterColon, body, nest);
      if HoldsEscape(ms.value) {
        SkipRefusesEscape(ms.value, ms.after + tail, nest);
      } else {
        NoEscapeOk(ms.value);
        SkipPrintedValue(ms.value, ms.after + tail, nest);
        BlankIsFlat(ms.after);
        SkipFlat(ms.after, tail, nest);
        SkipOne(COMMA, PrintMembers(ms.rest) + post, nest);
        SkipRefusesMembers(ms.rest, post, nest);
      }
    }
  }

  // ---------------------------------------------------------------------------
  // Scanning what was printed
  // ---------------------------------------------------------------------------

  lemma {:induction false} ScanBlank(ws: seq<byte>, post: seq<byte>, depth: nat, name: seq<byte>)
    requires Blank(ws)
    ensures Scan(ws + post, depth, name) == Scan(post, depth, name)
  {
    if ws == [] {
      assert ws + post == post;
    } else {
      assert (ws + post)[1..] == ws[1..] + post;
      ScanBlank(ws[1..], post, depth, name);
    }
  }

  lemma PrintedStartsNonBlank(v: Value)
    requires ValueText(v)
    ensures PrintValue(v) != [] && !IsWs(PrintValue(v)[0])
    ensures PrintValue(v)[0] == QUOTE <==> v.Str?
  {
  }

  /** A printed name is read back, up to the value. */
  lemma NameIsRead(key: seq<byte>, bc: seq<byte>, ac: seq<byte>, v: Value, post: seq<byte>)
    requires Plain(key) && Blank(bc) && Blank(ac) && ValueText(v)
    ensures TakeName(key + ([QUOTE] + (bc + ([COLON] + (ac + (PrintValue(v) + post)))))) ==
              Some((key, PrintValue(v) + post))
  {
    PrintedStartsNonBlank(v);
    var value := PrintValue(v) + post;
    var colon := [COLON] + (ac + value);
    TakeStringPlain(key, bc + colon);
    SkipWsBlank(bc, colon);
    assert SkipWs(colon) == colon && colon[1..] == ac + value;
    SkipWsBlank(ac, value);
    assert SkipWs(value) == value;
  }

  /** Past a printed value and the blanks after it, the walk stands at the comma or brace. */
  lemma ScanPastValue(v: Value, after: seq<byte>, stop: seq<byte>, name: seq<byte>)
    requires ValueOk(v) && Blank(after)
    requires stop != [] && (stop[0] == COMMA || stop[0] == RBRACE)
    ensures PrintValue(v) + (after + stop) != []
    ensures PastValue(PrintValue(v) + (after + stop)).Some?
    ensures Scan(PastValue(PrintValue(v) + (after + stop)).value, 1, name) == Scan(stop, 1, name)
  {
    OkIsText(v);
    PrintedStartsNonBlank(v);
    var s := PrintValue(v) + (after + stop);
    if v.Str? {
      assert s[1..] == v.chars + ([QUOTE] + (after + stop));
      SkipStringPlain(v.chars, after + stop);
      ScanBlank(after, stop, 1, name);
    } else {
      SkipPrintedValue(v, after + stop, 0);
      BlankIsFlat(after);
      SkipFlat(after, stop, 0);
      assert SkipValue(stop, 0) == Some(stop);
    }
  }

  /** A printed value that holds an escape is not passed at the top level either. */
  lemma PastRefusesEscape(v: Value, post: seq<byte>)
    requires ValueText(v) && HoldsEscape(v)
    ensures PrintValue(v) + post != [] && PastValue(PrintValue(v) + post) == None
  {
    PrintedStartsNonBlank(v);
    if v.Str? {
      BodyIsPlain(v.chars);
      assert (PrintValue(v) + post)[1..] == v.chars + ([QUOTE] + post);
      EscapeRefused(v.chars, [QUOTE] + post);
    } else {
      SkipRefusesEscape(v, post, 0);
    }
  }

  /** The scan at a top-level opening quote. */
  lemma ScanAtName(body: seq<byte>, key: seq<byte>, value: seq<byte>, name: seq<byte>)
    requires TakeName(body) == Some((key, value))
    ensures key != name && PastValue(value).Some? ==>
              Scan([QUOTE] + body, 1, name) == Scan(PastValue(value).value, 1, name)
    ensures key != name && PastValue(value).None? ==> Scan([QUOTE] + body, 1, name) == None
    ensures key == name && (value[0] != QUOTE || TakeString(value[1..]).None?) ==> Scan([QUOTE] + body, 1, name) == None
    ensures key == name && value[0] == QUOTE && TakeString(value[1..]).Some? ==>
              Scan([QUOTE] + body, 1, name) == Some(TakeString(value[1..]).value.0)
  {
    assert ([QUOTE] + body)[1..] == body;
  }

  lemma ScanRefusesName(key: seq<byte>, tail: seq<byte>, name: seq<byte>)
    requires Escaped(key)
    ensures Scan([QUOTE] + (key + tail), 1, name) == None
  {
    assert ([QUOTE] + (key + tail))[1..] == key + tail;
    EscapeRefused(key, tail);
  }

  lemma MemberLayout(
      ws: seq<byte>, key: seq<byte>, bc: seq<byte>, ac: seq<byte>, value: seq<byte>, after: seq<byte>, stop: seq<byte>)
    ensures PrintName(ws, key, bc, ac) + value + after + stop
         == ws + ([QUOTE] + (key + ([QUOTE] + (bc + ([COLON] + (ac + (value + (after + stop))))))))
  {
  }

  /** A printed string, read as the answer. */
  lemma TakeAnswer(v: Value, post: seq<byte>)
    requires v.Str? && ValueText(v)
    ensures var s := (PrintValue(v) + post)[1..];
            if BACKSLASH in v.chars then TakeString(s) == None else TakeString(s) == Some((v.chars, post))
  {
    assert (PrintValue(v) + post)[1..] == v.chars + ([QUOTE] + post);
    BodyIsPlain(v.chars);
    if BACKSLASH in v.chars {
      EscapeRefused(v.chars, [QUOTE] + post);
    } else {
      TakeStringPlain(v.chars, post);
    }
  }

  /** The value of a top-level member whose name is plain. */
  lemma ScanValue(
      key: seq<byte>, bc: seq<byte>, ac: seq<byte>, v: Value, after: seq<byte>, stop: seq<byte>, name: seq<byte>)
    requires Plain(key) && Blank(bc) && Blank(ac) && ValueText(v) && Blank(after)
    requires stop != [] && (stop[0] == COMMA || stop[0] == RBRACE)
    ensures Scan([QUOTE] + (key + ([QUOTE] + (bc + ([COLON] + (ac + (PrintValue(v) + (after + stop))))))), 1, name)
         == if key == name then (if v.Str? && BACKSLASH !in v.chars then Some(v.chars) else None)
            else if HoldsEscape(v) then None
            else Scan(stop, 1, name)
  {
    var value := PrintValue(v) + (after + stop);
    var body := key + ([QUOTE] + (bc + ([COLON] + (ac + value))));
    NameIsRead(key, bc, ac, v, after + stop);
    ScanAtName(body, key, value, name);
    PrintedStartsNonBlank(v);
    if key == name {
      if v.Str? {
        TakeAnswer(v, after + stop);
      }
    } else if HoldsEscape(v) {
      PastRefusesEscape(v, after + stop);
    } else {
      NoEscapeOk(v);
      ScanPastValue(v, after, stop, name);
    }
  }

  /** One printed member at the top level: the answer, a refusal, or on to what follows. */
  lemma ScanMember(
      ws: seq<byte>, key: seq<byte>, bc: seq<byte>, ac: seq<byte>, v: Value, after: seq<byte>, stop: seq<byte>,
      name: seq<byte>)
    requires NameText(ws, key, bc, ac) && ValueText(v) && Blank(after)
    requires stop != [] && (stop[0] == COMMA || stop[0] == RBRACE)
    ensures Scan(PrintName(ws, key, bc, ac) + PrintValue(v) + after + stop, 1, name)
         == if BACKSLASH in key then None
            else if key == name then (if v.Str? && BACKSLASH !in v.chars then Some(v.chars) else None)
            else if HoldsEscape(v) then None
            else Scan(stop, 1, name)
  {
    var tail := [QUOTE] + (bc + ([COLON] + (ac + (PrintValue(v) + (after + stop)))));
    MemberLayout(ws, key, bc, ac, PrintValue(v), after, stop);
    ScanBlank(ws, [QUOTE] + (key + tail), 1, name);
    BodyIsPlain(key);
    if BACKSLASH in key {
      ScanRefusesName(key, tail, name);
    } else {
      ScanValue(key, bc, ac, v, after, stop, name);
    }
  }

  lemma ScanClose(tail: seq<byte>, name: seq<byte>)
    requires Blank(tail)
    ensures Scan([RBRACE] + tail, 1, name) == None
  {
    assert ([RBRACE] + tail)[1..] == tail;
    ScanBlank(tail, [], 0, name);
    assert tail + [] == tail;
  }

  lemma {:induction false} ScanMembers(ms: Members, tail: seq<byte>, name: seq<byte>)
    requires MembersText(ms) && Blank(tail)
    ensures Scan(PrintMembers(ms) + ([RBRACE] + tail), 1, name) == Answer(ms, name)
    decreases ms
  {
    var close := [RBRACE] + tail;
    ScanClose(tail, name);
    match ms {
      case NoMembers(ws) =>
        ScanBlank(ws, close, 1, name);
      case LastMember(ws, key, bc, ac, v, after) =>
        ScanMember(ws, key, bc, ac, v, after, close, name);
      case Member(ws, key, bc, ac, v, after, rest) =>
        var next := PrintMembers(rest) + close;
        var stop := [COMMA] + next;
        assert PrintMembers(ms) + close == PrintName(ws, key, bc, ac) + PrintValue(v) + after + stop;
        ScanMember(ws, key, bc, ac, v, after, stop, name);
        assert stop[1..] == next;
        ScanMembers(rest, tail, name);
    }
  }

  /**
   The scanner decides every object, whatever its strings hold: it answers the string member of
   the name, and refuses when an escape shows in a top-level name, in that string, or anywhere,
   nested values included, in what comes before it.
   */
  lemma ScannerDecidesEveryObject(d: Document, name: seq<byte>)
    requires DocumentText(d)
    ensures Extract(Print(d), name) == Answer(d.members, name)
  {
    var s := [LBRACE] + (PrintMembers(d.members) + ([RBRACE] + d.after));
    assert Print(d) == d.before + s;
    SkipWsBlank(d.before, s);
    assert SkipWs(s) == s;
    assert s[1..] == PrintMembers(d.members) + ([RBRACE] + d.after);
    ScanMembers(d.members, d.after, name);
  }

  lemma {:induction false} OkIsText(v: Value)
    requires ValueOk(v)
    ensures ValueText(v) && !HoldsEscape(v)
    decreases v
  {
    match v {
      case Str(_) =>
      case Atom(_) =>
      case Arr(elems) => OkElemsText(elems);
      case Obj(members) => OkMembersText(members);
    }
  }

  lemma {:induction false} OkElemsText(es: Elems)
    requires ElemsOk(es)
    ensures ElemsText(es) && !ElemsHoldEscape(es)
    decreases es
  {
    if !es.NoElems? {
      OkIsText(es.value);
      if es.Elem? {
        OkElemsText(es.rest);
      }
    }
  }

  lemma {:induction false} OkMembersText(ms: Members)
    requires MembersOk(ms)
    ensures MembersText(ms) && !MembersHoldEscape(ms)
    decreases ms
  {
    if !ms.NoMembers? {
      OkIsText(ms.value);
      if ms.Member? {
        OkMembersText(ms.rest);
      }
    }
  }

  lemma {:induction false} AnswerIsLookup(ms: Members, name: seq<byte>)
    requires MembersOk(ms)
    ensures Answer(ms, name) == Lookup(ms, name)
    decreases ms
  {
    if !ms.NoMembers? {
      OkIsText(ms.value);
      if ms.Member? {
        AnswerIsLookup(ms.rest, name);
      }
    }
  }

  /**
   For every document without escapes, however spaced and however deeply nested, the scanner
   answers the first top-level member of the name when that is a string, and fails otherwise.
   */
  lemma ScannerFindsFirstTopLevelString(d: Document, name: seq<byte>)
    requires DocumentOk(d)
    ensures Extract(Print(d), name) == Lookup(d.members, name)
  {
    OkMembersText(d.members);
    AnswerIsLookup(d.members, name);
    ScannerDecidesEveryObject(d, name);
  }
}
