/**
 What the engine may do to a stored policy: charge it. Limits, windows, mints, program lists and
 expiries stay, caps only fall, and nothing but counter bytes moves.
 */
module Narrowing {
  import opened Bytes
  import opened ActionBuffer
  import opened Limits
  import opened PolicyEngine

  predicate NoWiderRule(r: Rule, q: Rule) {
    match r
    case SolCap(remaining) => q.SolCap? && q.remaining <= remaining
    case TokenCap(mint, remaining) => q.TokenCap? && q.mint == mint && q.remaining <= remaining
    case SolRate(m) => q.SolRate? && q.meter.limit == m.limit && q.meter.window == m.window
    case TokenRate(mint, m) => q.TokenRate? && q.mint == mint && q.meter.limit == m.limit && q.meter.window == m.window
    case _ => q == r
  }

  /** Every action of `q` is the action of `p` in its place, with no more left to spend. */
  ghost predicate NoWider(p: Policy, q: Policy) {
    |q| == |p| && forall i :: 0 <= i < |p| ==> q[i].expiresAt == p[i].expiresAt && NoWiderRule(p[i].rule, q[i].rule)
  }

  /** The buffer an accepted Execute leaves. */
  ghost predicate ChargedBy(before: seq<byte>, after: seq<byte>, s: Spend) {
    && Runnable(before) && Runnable(after) && SameButCounters(before, after, 0) && Parse(after) == Parse(before)
    && Permitted(Meaning(before), s) && Meaning(after) == ChargeAll(Meaning(before), s)
  }

  /** An account without a policy is left without one. */
  ghost predicate Settled(before: seq<byte>, after: seq<byte>, s: Spend) {
    if |before| == 0 then after == before else ChargedBy(before, after, s)
  }

  /** The same policy, or one with less left. */
  ghost predicate Narrowed(before: seq<byte>, after: seq<byte>) {
    || after == before
    || (&& Runnable(before) && Runnable(after) && |after| == |before| && Parse(after) == Parse(before)
        && (forall k :: 0 <= k < |before| && !InSomeCounter(Parse(before).value, k) ==> after[k] == before[k])
        && NoWider(Meaning(before), Meaning(after)))
  }

  lemma ChargeNoWider(p: Policy, s: Spend)
    ensures NoWider(p, ChargeAll(p, s))
  {
  }

  lemma NoWiderTrans(p: Policy, q: Policy, r: Policy)
    requires NoWider(p, q) && NoWider(q, r)
    ensures NoWider(p, r)
  {
    forall i | 0 <= i < |p|
      ensures r[i].expiresAt == p[i].expiresAt && NoWiderRule(p[i].rule, r[i].rule)
    {
      assert NoWiderRule(p[i].rule, q[i].rule) && NoWiderRule(q[i].rule, r[i].rule);
    }
  }

  lemma SettledNarrows(before: seq<byte>, after: seq<byte>, s: Spend)
    requires Settled(before, after, s)
    ensures Narrowed(before, after) && |after| == |before|
  {
    assert before[0..] == before;
    if |before| > 0 {
      ChargeNoWider(Meaning(before), s);
    }
  }

  lemma NarrowedTrans(a: seq<byte>, b: seq<byte>, c: seq<byte>)
    requires Narrowed(a, b) && Narrowed(b, c)
    ensures Narrowed(a, c) && |c| == |a|
  {
    if a != b && b != c {
      NoWiderTrans(Meaning(a), Meaning(b), Meaning(c));
    }
  }
}
