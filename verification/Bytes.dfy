/**
 Machine bytes and little-endian integers.

 `u64` arithmetic is explicit: `SatAdd` and `SatSub` are Rust's saturating operators,
 and nothing wraps.
 */
module Bytes {

  type byte = b: int | 0 <= b < 256

  const U32_MAX: int := 0xFFFF_FFFF
  const U64_MAX: int := 0xFFFF_FFFF_FFFF_FFFF

  type u64 = x: int | 0 <= x <= U64_MAX

  /** A 32-byte public key. */
  type Key = k: seq<byte> | |k| == 32 witness seq(32, _ => 0)

  /** SHA-256, with nothing assumed about it. */
  type Sha = seq<byte> -> Key

  /** Two strings with one hash. */
  ghost predicate Collides(sha: Sha, x: seq<byte>, y: seq<byte>) {
    x != y && sha(x) == sha(y)
  }

  datatype Option<+T> = None | Some(value: T)

  datatype Result<+T, +E> = Ok(value: T) | Err(error: E)

  function Min(a: int, b: int): int {
    if a <= b then a else b
  }

  function SatAdd(a: u64, b: u64): u64 {
    Min(a + b, U64_MAX)
  }

  function SatSub(a: u64, b: u64): u64 {
    if a >= b then a - b else 0
  }

  function Pow256(n: nat): (p: nat)
    ensures p > 0
  {
    if n == 0 then 1 else 256 * Pow256(n - 1)
  }

  /** The number a little-endian byte string denotes. */
  function FromLe(s: seq<byte>): nat {
    if s == [] then 0 else s[0] + 256 * FromLe(s[1..])
  }

  /** `v` modulo 256^n as `n` little-endian bytes. */
  function ToLe(v: nat, n: nat): (s: seq<byte>)
    ensures |s| == n
  {
    if n == 0 then [] else [v % 256] + ToLe(v / 256, n - 1)
  }

  lemma {:induction false} FromLeBound(s: seq<byte>)
    ensures FromLe(s) < Pow256(|s|)
  {
    if s != [] {
      FromLeBound(s[1..]);
    }
  }

  lemma {:induction false} FromToLe(v: nat, n: nat)
    requires v < Pow256(n)
    ensures FromLe(ToLe(v, n)) == v
  {
    if n != 0 {
      FromToLe(v / 256, n - 1);
      assert ToLe(v, n)[1..] == ToLe(v / 256, n - 1);
    }
  }

  lemma LowByte(b: byte, n: nat)
    ensures (b + 256 * n) % 256 == b && (b + 256 * n) / 256 == n
  {
  }

  lemma {:induction false} ToFromLe(s: seq<byte>)
    ensures ToLe(FromLe(s), |s|) == s
  {
    if s != [] {
      var n := FromLe(s[1..]);
      LowByte(s[0], n);
      calc {
        ToLe(FromLe(s), |s|);
        ToLe(s[0] + 256 * n, |s|);
        [s[0]] + ToLe(n, |s| - 1);
        { ToFromLe(s[1..]); }
        [s[0]] + s[1..];
        s;
      }
    }
  }

  lemma PowersOf256()
    ensures Pow256(1) == 0x100
    ensures Pow256(2) == 0x1_0000
    ensures Pow256(4) == U32_MAX + 1
    ensures Pow256(8) == U64_MAX + 1
  {
    assert Pow256(1) == 256 * Pow256(0);
    assert Pow256(2) == 256 * Pow256(1);
    assert Pow256(3) == 256 * Pow256(2);
    assert Pow256(4) == 256 * Pow256(3);
    assert Pow256(5) == 256 * Pow256(4);
    assert Pow256(6) == 256 * Pow256(5);
    assert Pow256(7) == 256 * Pow256(6);
  }

  /** `u64::from_le_bytes(data[offset..offset + 8])`. */
  function ReadU64(data: seq<byte>, offset: nat): (v: u64)
    requires offset + 8 <= |data|
  {
    FromLeBound(data[offset..offset + 8]);
    PowersOf256();
    FromLe(data[offset..offset + 8])
  }

  function ReadU16(data: seq<byte>, offset: nat): (v: nat)
    requires offset + 2 <= |data|
    ensures v < 0x1_0000
  {
    FromLeBound(data[offset..offset + 2]);
    PowersOf256();
    FromLe(data[offset..offset + 2])
  }

  /** `data` with the bytes from `offset` on overwritten by `patch`. */
  function Splice(data: seq<byte>, offset: nat, patch: seq<byte>): (s: seq<byte>)
    requires offset + |patch| <= |data|
    ensures |s| == |data|
    ensures forall i :: 0 <= i < |data| ==>
              s[i] == if offset <= i < offset + |patch| then patch[i - offset] else data[i]
  {
    data[..offset] + patch + data[offset + |patch|..]
  }

  function WriteU64(data: seq<byte>, offset: nat, v: u64): (s: seq<byte>)
    requires offset + 8 <= |data|
    ensures |s| == |data|
  {
    Splice(data, offset, ToLe(v, 8))
  }

  /** A written counter reads back, and no other byte moves. */
  lemma ReadAfterWrite(data: seq<byte>, offset: nat, v: u64)
    requires offset + 8 <= |data|
    ensures ReadU64(WriteU64(data, offset, v), offset) == v
    ensures forall i :: 0 <= i < |data| && !(offset <= i < offset + 8) ==> WriteU64(data, offset, v)[i] == data[i]
  {
    PowersOf256();
    FromToLe(v, 8);
    assert WriteU64(data, offset, v)[offset..offset + 8] == ToLe(v, 8);
  }

  lemma SliceOfSlice(a: seq<byte>, lo: nat, hi: nat, i: nat, j: nat)
    requires lo <= hi <= |a| && i <= j <= hi - lo
    ensures a[lo..hi][i..j] == a[lo + i..lo + j]
  {
    var s := a[lo..hi];
    forall k | 0 <= k < j - i ensures s[i..j][k] == a[lo + i..lo + j][k] {
      assert s[i + k] == a[lo + i + k];
    }
  }

  /** `write_u64` of `state/action.rs`: overwrite eight bytes of an account in place. */
  method StoreU64(data: array<byte>, offset: nat, v: u64)
    requires offset + 8 <= data.Length
    modifies data
    ensures data[..] == WriteU64(old(data[..]), offset, v)
  {
    var bytes := ToLe(v, 8);
    for i := 0 to 8
      invariant forall j :: 0 <= j < data.Length ==>
          data[j] == if offset <= j < offset + i then bytes[j - offset] else old(data[j])
    {
      data[offset + i] := bytes[i];
    }
  }
}
