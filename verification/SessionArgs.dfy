/**
 The arguments of CreateSession (`ParsedCreateSessionArgs::from_bytes`): what is signed as
 arguments and what is left as the passkey's payload.
 */
module SessionArgs {
  import opened Bytes
  import opened PolicyEngine
  import opened PolicyValidation

  const MAX_ACTIONS_BUFFER_SIZE: nat := 2048

  /** `end` is where the arguments stop and the authentication payload starts. */
  datatype Args = Args(key: Key, expiresAt: u64, actions: seq<byte>, end: nat)

  ghost predicate Acceptable(actions: seq<byte>) {
    |actions| <= 2048 && Runnable(actions) && Grantable(Meaning(actions))
  }

  ghost function ParseArgs(data: seq<byte>): Option<Args> {
    if |data| < 40 then None
    else if |data| < 42 then Some(Args(data[..32], ReadU64(data, 32), [], 40))
    else
      var n := ReadU16(data, 40);
      if |data| < 42 + n || !Acceptable(data[42..42 + n]) then None
      else Some(Args(data[..32], ReadU64(data, 32), data[42..42 + n], 42 + n))
  }

  lemma NoActionsAcceptable()
    ensures Acceptable([])
  {
    assert Runnable([]);
    assert Meaning([]) == [];
  }

  /** The parser, with its size cap checked before anything is copied. */
  method ParseSessionArgs(data: seq<byte>) returns (r: Option<Args>)
    ensures r == ParseArgs(data)
  {
    if |data| < 40 {
      return None;
    }
    var key, expiresAt := data[..32], ReadU64(data, 32);
    if |data| >= 42 {
      var n := ReadU16(data, 40);
      if n > MAX_ACTIONS_BUFFER_SIZE {
        if |data| >= 42 + n {
          assert |data[42..42 + n]| == n;
        }
        return None;
      }
      if n > 0 {
        if |data| < 42 + n {
          return None;
        }
        var actions := data[42..42 + n];
        var valid := ValidateActionsBuffer(actions);
        if valid.Err? {
          return None;
        }
        return Some(Args(key, expiresAt, actions, 42 + n));
      }
      NoActionsAcceptable();
      assert data[42..42] == [];
      return Some(Args(key, expiresAt, [], 42));
    }
    r := Some(Args(key, expiresAt, [], 40));
  }

  function EncodeArgs(key: Key, expiresAt: u64, actions: seq<byte>): seq<byte> {
    key + ToLe(expiresAt, 8) + ToLe(|actions|, 2) + actions
  }

  /** What a client encodes is what is parsed, whatever payload follows, exactly when it may be stored. */
  lemma ArgsRoundTrip(key: Key, expiresAt: u64, actions: seq<byte>, tail: seq<byte>)
    requires |actions| < 0x1_0000
    ensures ParseArgs(EncodeArgs(key, expiresAt, actions) + tail) == Some(Args(key, expiresAt, actions, 42 + |actions|))
       <==> Acceptable(actions)
  {
    var data := EncodeArgs(key, expiresAt, actions) + tail;
    PowersOf256();
    FromToLe(expiresAt, 8);
    FromToLe(|actions|, 2);
    assert data[..32] == key;
    assert data[32..40] == ToLe(expiresAt, 8);
    assert data[40..42] == ToLe(|actions|, 2);
    assert data[42..42 + |actions|] == actions;
  }

  lemma PrefixParses(data: seq<byte>, tail: seq<byte>)
    requires ParseArgs(data).Some? && ParseArgs(data).value.end >= 42
    ensures ParseArgs(data[..ParseArgs(data).value.end] + tail) == ParseArgs(data)
  {
    var end := ParseArgs(data).value.end;
    var other := data[..end] + tail;
    assert other[..32] == data[..32] && other[32..40] == data[32..40] && other[40..42] == data[40..42];
    assert other[42..end] == data[42..end];
  }

  /** The form without an actions length is no prefix code: two zero bytes more are read as one. */
  lemma ShortFormIsAmbiguous(data: seq<byte>)
    requires ParseArgs(data).Some? && ParseArgs(data).value.end == 40
    ensures ParseArgs(data[..40] + [0, 0]) != ParseArgs(data)
  {
    var other := data[..40] + [0, 0];
    assert other[40..42] == ToLe(0, 2);
    PowersOf256();
    FromToLe(0, 2);
    NoActionsAcceptable();
    assert other[42..42] == [];
  }

  /**
   Arguments keep their meaning under every payload exactly when the input was long enough for
   an actions length, the guard that decides between the two forms.
   */
  lemma ArgumentsSplitIff(data: seq<byte>)
    requires ParseArgs(data).Some?
    ensures (forall tail :: ParseArgs(data[..ParseArgs(data).value.end] + tail) == ParseArgs(data)) <==> |data| >= 42
  {
    var end := ParseArgs(data).value.end;
    if |data| >= 42 {
      forall tail
        ensures ParseArgs(data[..end] + tail) == ParseArgs(data)
      {
        PrefixParses(data, tail);
      }
    } else {
      ShortFormIsAmbiguous(data);
    }
  }
}
