/**
 What a policy means: the rules a signer carries, what one Execute spent, which spends the
 rules admit and what they remember afterwards. The byte-level engine
 (`PolicyEngine`) is proved to compute exactly this.
 */
module Limits {
  import opened Bytes

  /** `{limit, spent, window, last_reset}` of a recurring limit. */
  datatype Meter = Meter(limit: u64, spent: u64, window: u64, lastReset: u64) {
    predicate Resets(slot: u64) {
      SatSub(slot, lastReset) > window
    }

    predicate Admits(amount: u64, slot: u64) {
      if Resets(slot)
      then amount <= limit
      else SatAdd(spent, amount) <= limit
    }

    function Charge(amount: u64, slot: u64): Meter {
      if Resets(slot)
      then this.(spent := amount, lastReset := slot)
      else this.(spent := SatAdd(spent, amount))
    }
  }

  datatype Rule =
    | SolCap(remaining: u64)
    | SolRate(meter: Meter)
    | SolPerTx(max: u64)
    | TokenCap(mint: Key, remaining: u64)
    | TokenRate(mint: Key, meter: Meter)
    | TokenPerTx(mint: Key, max: u64)
    | AllowProgram(program: Key)
    | DenyProgram(program: Key)
  {
    predicate NamesSol() {
      SolCap? || SolRate? || SolPerTx?
    }

    predicate NamesMint(m: Key) {
      (TokenCap? || TokenRate? || TokenPerTx?) && mint == m
    }
  }

  /** `is_expired`: zero never expires, and the last slot still counts. */
  predicate IsExpired(expiresAt: u64, slot: u64) {
    expiresAt != 0 && slot > expiresAt
  }

  datatype Action = Action(rule: Rule, expiresAt: u64) {
    predicate Expired(slot: u64) {
      IsExpired(expiresAt, slot)
    }
  }

  type Policy = seq<Action>

  /** A mint's balance over the snapshotted accounts, before and after the inner instructions. */
  datatype MintFlow = MintFlow(mint: Key, before: u64, after: u64) {
    function Outflow(): u64 {
      SatSub(before, after)
    }
  }

  /** What one Execute did: net SOL out, gross SOL out, and each mint's flow. */
  datatype Spend = Spend(sol: u64, gross: u64, flows: seq<MintFlow>, slot: u64) {
    function TokenOut(mint: Key): u64 {
      FirstOutflow(flows, mint)
    }
  }

  function FirstOutflow(flows: seq<MintFlow>, mint: Key): u64 {
    if flows == [] then 0
    else if flows[0].mint == mint then flows[0].Outflow()
    else FirstOutflow(flows[1..], mint)
  }

  datatype PolicyError =
    | ActionSolMaxPerTxExceeded | ActionSolLimitExceeded | ActionSolRecurringLimitExceeded
    | ActionTokenMaxPerTxExceeded | ActionTokenLimitExceeded | ActionTokenRecurringLimitExceeded
    | ActionUnlistedSolOutflow | ActionUnlistedTokenOutflow
    | ActionProgramNotWhitelisted | ActionProgramBlacklisted | ProgramIndexOutOfRange

  // ---------------------------------------------------------------------------
  // The verdict: which error, in the order the engine looks
  // ---------------------------------------------------------------------------

  function SolObjection(a: Action, s: Spend): Option<PolicyError> {
    match a.rule
    case SolPerTx(max) =>
      if s.gross > 0 && (a.Expired(s.slot) || s.gross > max) then Some(ActionSolMaxPerTxExceeded) else None
    case SolCap(remaining) =>
      if s.sol > 0 && (a.Expired(s.slot) || s.sol > remaining) then Some(ActionSolLimitExceeded) else None
    case SolRate(m) =>
      if s.sol > 0 && (a.Expired(s.slot) || !m.Admits(s.sol, s.slot))
      then Some(ActionSolRecurringLimitExceeded)
      else None
    case _ => None
  }

  function TokenObjection(a: Action, s: Spend): Option<PolicyError> {
    match a.rule
    case TokenPerTx(mint, max) =>
      if s.TokenOut(mint) > 0 && (a.Expired(s.slot) || s.TokenOut(mint) > max)
      then Some(ActionTokenMaxPerTxExceeded)
      else None
    case TokenCap(mint, remaining) =>
      if s.TokenOut(mint) > 0 && (a.Expired(s.slot) || s.TokenOut(mint) > remaining)
      then Some(ActionTokenLimitExceeded)
      else None
    case TokenRate(mint, m) =>
      if s.TokenOut(mint) > 0 && (a.Expired(s.slot) || !m.Admits(s.TokenOut(mint), s.slot))
      then Some(ActionTokenRecurringLimitExceeded)
      else None
    case _ => None
  }

  function SolVerdict(p: Policy, s: Spend): Option<PolicyError> {
    if p == [] then None
    else if SolObjection(p[0], s).Some? then SolObjection(p[0], s)
    else SolVerdict(p[1..], s)
  }

  function TokenVerdict(p: Policy, s: Spend): Option<PolicyError> {
    if p == [] then None
    else if TokenObjection(p[0], s).Some? then TokenObjection(p[0], s)
    else TokenVerdict(p[1..], s)
  }

  predicate NamesSol(p: Policy) {
    exists i :: 0 <= i < |p| && p[i].rule.NamesSol()
  }

  predicate NamesMint(p: Policy, mint: Key) {
    exists i :: 0 <= i < |p| && p[i].rule.NamesMint(mint)
  }

  predicate UnlistedOut(p: Policy, f: MintFlow) {
    f.Outflow() > 0 && !NamesMint(p, f.mint)
  }

  function UnlistedVerdict(p: Policy, s: Spend): Option<PolicyError> {
    if !NamesSol(p) && s.sol > 0 then Some(ActionUnlistedSolOutflow)
    else if exists i :: 0 <= i < |s.flows| && UnlistedOut(p, s.flows[i]) then Some(ActionUnlistedTokenOutflow)
    else None
  }

  function Verdict(p: Policy, s: Spend): Option<PolicyError> {
    if SolVerdict(p, s).Some? then SolVerdict(p, s)
    else if TokenVerdict(p, s).Some? then TokenVerdict(p, s)
    else UnlistedVerdict(p, s)
  }

  // ---------------------------------------------------------------------------
  // What remains after an admitted spend
  // ---------------------------------------------------------------------------

  function Charge(a: Action, s: Spend): Action {
    if a.Expired(s.slot) then a
    else match a.rule
      case SolCap(remaining) =>
        if s.sol > 0 then a.(rule := SolCap(SatSub(remaining, s.sol))) else a
      case SolRate(m) =>
        if s.sol > 0 then a.(rule := SolRate(m.Charge(s.sol, s.slot))) else a
      case TokenCap(mint, remaining) =>
        if s.TokenOut(mint) > 0 then a.(rule := TokenCap(mint, SatSub(remaining, s.TokenOut(mint)))) else a
      case TokenRate(mint, m) =>
        if s.TokenOut(mint) > 0 then a.(rule := TokenRate(mint, m.Charge(s.TokenOut(mint), s.slot))) else a
      case _ => a
  }

  function ChargeAll(p: Policy, s: Spend): (q: Policy)
    ensures |q| == |p|
    ensures forall i :: 0 <= i < |p| ==> q[i] == Charge(p[i], s)
  {
    seq(|p|, i requires 0 <= i < |p| => Charge(p[i], s))
  }

  /** The policy after an Execute: charged when the spend was admitted, untouched otherwise. */
  function Next(p: Policy, s: Spend): Policy {
    if Verdict(p, s).None? then ChargeAll(p, s) else p
  }

  // ---------------------------------------------------------------------------
  // Permission, stated without an order of checks
  // ---------------------------------------------------------------------------

  /** A live cap, meter or per-transaction bound leaves room for `amount`. */
  ghost predicate Room(a: Action, amount: u64, slot: u64) {
    !a.Expired(slot) &&
    match a.rule
    case SolCap(remaining) => amount <= remaining
    case SolRate(m) => m.Admits(amount, slot)
    case SolPerTx(max) => amount <= max
    case TokenCap(_, remaining) => amount <= remaining
    case TokenRate(_, m) => m.Admits(amount, slot)
    case TokenPerTx(_, max) => amount <= max
    case _ => true
  }

  /**
   SOL may fall only if some action names it and every action naming it has room; a mint
   likewise. `SolPerTx` measures the gross outflow, every other rule the net one.
   */
  ghost predicate Permitted(p: Policy, s: Spend) {
    && (s.sol > 0 ==> NamesSol(p))
    && (forall i :: 0 <= i < |p| && p[i].rule.NamesSol() ==>
          var amount := if p[i].rule.SolPerTx? then s.gross else s.sol;
          amount > 0 ==> Room(p[i], amount, s.slot))
    && (forall f :: f in s.flows && f.Outflow() > 0 ==> NamesMint(p, f.mint))
    && (forall i :: 0 <= i < |p| && p[i].rule.NamesMint(RuleMint(p[i].rule)) ==>
          s.TokenOut(RuleMint(p[i].rule)) > 0 ==> Room(p[i], s.TokenOut(RuleMint(p[i].rule)), s.slot))
  }

  function RuleMint(r: Rule): Key {
    if r.TokenCap? || r.TokenRate? || r.TokenPerTx? then r.mint else seq(32, _ => 0)
  }

  lemma {:induction false} SolVerdictNone(p: Policy, s: Spend)
    ensures SolVerdict(p, s).None? <==> forall i :: 0 <= i < |p| ==> SolObjection(p[i], s).None?
  {
    if p != [] {
      SolVerdictNone(p[1..], s);
      if SolVerdict(p, s).None? {
        forall i | 0 <= i < |p| ensures SolObjection(p[i], s).None? {
          assert i > 0 ==> p[i] == p[1..][i - 1];
        }
      }
    }
  }

  lemma {:induction false} TokenVerdictNone(p: Policy, s: Spend)
    ensures TokenVerdict(p, s).None? <==> forall i :: 0 <= i < |p| ==> TokenObjection(p[i], s).None?
  {
    if p != [] {
      TokenVerdictNone(p[1..], s);
      if TokenVerdict(p, s).None? {
        forall i | 0 <= i < |p| ensures TokenObjection(p[i], s).None? {
          assert i > 0 ==> p[i] == p[1..][i - 1];
        }
      }
    }
  }

  /** The engine's ordered checks accept exactly the permitted spends. */
  lemma VerdictMeansPermitted(p: Policy, s: Spend)
    ensures Verdict(p, s).None? <==> Permitted(p, s)
  {
    SolVerdictNone(p, s);
    TokenVerdictNone(p, s);
    if Verdict(p, s).None? {
      forall f | f in s.flows && f.Outflow() > 0 ensures NamesMint(p, f.mint) {
        var i :| 0 <= i < |s.flows| && s.flows[i] == f;
        assert !UnlistedOut(p, s.flows[i]);
      }
      forall i | 0 <= i < |p| && p[i].rule.NamesSol()
        ensures var amount := if p[i].rule.SolPerTx? then s.gross else s.sol; amount > 0 ==> Room(p[i], amount, s.slot)
      {
        assert SolObjection(p[i], s).None?;
      }
      forall i | 0 <= i < |p| && p[i].rule.NamesMint(RuleMint(p[i].rule))
        ensures s.TokenOut(RuleMint(p[i].rule)) > 0 ==> Room(p[i], s.TokenOut(RuleMint(p[i].rule)), s.slot)
      {
        assert TokenObjection(p[i], s).None?;
      }
    }
    if Permitted(p, s) {
      forall i | 0 <= i < |p| ensures SolObjection(p[i], s).None? && TokenObjection(p[i], s).None? {
        assert p[i].rule.NamesSol() ==> p[i].rule.NamesSol();
        assert p[i].rule.NamesMint(RuleMint(p[i].rule)) || !IsTokenRule(p[i].rule);
      }
      forall i | 0 <= i < |s.flows| ensures !UnlistedOut(p, s.flows[i]) {
        assert s.flows[i] in s.flows;
      }
    }
  }

  predicate IsTokenRule(r: Rule) {
    r.TokenCap? || r.TokenRate? || r.TokenPerTx?
  }

  lemma {:induction false} OutflowIsListed(flows: seq<MintFlow>, mint: Key)
    requires FirstOutflow(flows, mint) > 0
    ensures exists f :: f in flows && f.mint == mint && f.Outflow() > 0
  {
    if flows[0].mint == mint {
      assert flows[0] in flows;
    } else {
      OutflowIsListed(flows[1..], mint);
      var f :| f in flows[1..] && f.mint == mint && f.Outflow() > 0;
      assert f in flows;
    }
  }

  /** A mint falls only if some action names it. */
  lemma OnlyNamedMintsFall(p: Policy, s: Spend, mint: Key)
    requires Permitted(p, s) && s.TokenOut(mint) > 0
    ensures NamesMint(p, mint)
  {
    OutflowIsListed(s.flows, mint);
  }

  // ---------------------------------------------------------------------------
  // One rule at a time, in numbers
  // ---------------------------------------------------------------------------

  /** What a rule on its own answers to an outflow of what it measures. */
  function Decides(live: bool, out: int, room: int, e: PolicyError): Option<PolicyError> {
    if out == 0 || (live && out <= room) then None else Some(e)
  }

  /** What a recurring limit has room for. */
  function MeterRoom(m: Meter, slot: int): int {
    if slot - m.lastReset > m.window then m.limit else m.limit - m.spent
  }

  lemma OneVerdict(a: Action, s: Spend)
    ensures SolVerdict([a], s) == SolObjection(a, s) && TokenVerdict([a], s) == TokenObjection(a, s)
  {
    var p := [a];
    assert p[1..] == [] && SolVerdict(p[1..], s) == None && TokenVerdict(p[1..], s) == None;
    assert SolVerdict(p, s) == SolObjection(p[0], s) && TokenVerdict(p, s) == TokenObjection(p[0], s);
  }

  lemma OneSolRule(a: Action, s: Spend)
    requires a.rule.NamesSol() && s.flows == []
    ensures Verdict([a], s) == SolObjection(a, s)
  {
    OneVerdict(a, s);
    assert [a][0].rule.NamesSol();
  }

  lemma OneTokenRule(a: Action, s: Spend, f: MintFlow)
    requires s.sol == 0 && s.flows == [f] && a.rule.NamesMint(f.mint)
    ensures Verdict([a], s) == TokenObjection(a, s) && s.TokenOut(f.mint) == f.Outflow()
  {
    OneVerdict(a, s);
    assert [a][0].rule.NamesMint(f.mint);
    assert s.flows[0] == f;
  }

  /**
   A policy of one limit lets out what the limit has room for, up to and including the action's
   last slot, and refuses the rest with that limit's error: per transaction the gross outflow
   counts, otherwise the net one. Zero never expires.
   */
  lemma OneRuleDecides(
      remaining: u64, m: Meter, mint: Key, expiresAt: u64, sol: u64, gross: u64, b: u64, a: u64, slot: u64)
    requires m.spent <= m.limit < U64_MAX
    ensures var live := expiresAt == 0 || slot <= expiresAt;
            var out := if b > a then b - a else 0;
            var coin, token := Spend(sol, sol, [], slot), Spend(0, gross, [MintFlow(mint, b, a)], slot);
            && Verdict([Action(SolCap(remaining), expiresAt)], coin)
               == Decides(live, sol, remaining, ActionSolLimitExceeded)
            && Verdict([Action(SolRate(m), expiresAt)], coin)
               == Decides(live, sol, MeterRoom(m, slot), ActionSolRecurringLimitExceeded)
            && Verdict([Action(SolPerTx(remaining), expiresAt)], Spend(sol, gross, [], slot))
               == Decides(live, gross, remaining, ActionSolMaxPerTxExceeded)
            && Verdict([Action(TokenCap(mint, remaining), expiresAt)], token)
               == Decides(live, out, remaining, ActionTokenLimitExceeded)
            && Verdict([Action(TokenRate(mint, m), expiresAt)], token)
               == Decides(live, out, MeterRoom(m, slot), ActionTokenRecurringLimitExceeded)
            && Verdict([Action(TokenPerTx(mint, remaining), expiresAt)], token)
               == Decides(live, out, remaining, ActionTokenMaxPerTxExceeded)
  {
    var coin, flow := Spend(sol, sol, [], slot), MintFlow(mint, b, a);
    OneSolRule(Action(SolCap(remaining), expiresAt), coin);
    OneSolRule(Action(SolRate(m), expiresAt), coin);
    OneSolRule(Action(SolPerTx(remaining), expiresAt), Spend(sol, gross, [], slot));
    OneTokenRule(Action(TokenCap(mint, remaining), expiresAt), Spend(0, gross, [flow], slot), flow);
    OneTokenRule(Action(TokenRate(mint, m), expiresAt), Spend(0, gross, [flow], slot), flow);
    OneTokenRule(Action(TokenPerTx(mint, remaining), expiresAt), Spend(0, gross, [flow], slot), flow);
  }
}
