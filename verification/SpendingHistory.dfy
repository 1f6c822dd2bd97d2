/**
 What whole histories of accepted Executes by one signer amount to, on the chain and in the
 bytes of the signer's account: caps are ledgers of what the vault really lost, recurring limits
 bound it, per-transaction limits bound every dip, and what a passkey signed is what ran.
 */
module SpendingHistory {
  import opened Bytes
  import opened Limits
  import opened PolicyEngine
  import opened TokenAccounts
  import opened Execute
  import L = Ledgers
  import C = Compact
  import N = Narrowing
  import P = Passkey

  // ---------------------------------------------------------------------------
  // One accepted Execute
  // ---------------------------------------------------------------------------

  /** One Execute of a policy-bearing signer, from the account before its inner calls to the account after. */
  datatype Turn = Turn(
    list: C.Listing, bank: Bank, after: Bank, vault: Key, trace: seq<u64>, cpis: seq<C.Cpi>, slot: u64,
    data: seq<byte>, spend: Spend, dataAfter: seq<byte>)

  ghost predicate Accepted(t: Turn, loc: nat) {
    && loc <= |t.data| && Runnable(t.data[loc..])
    && Outcome(t.list, t.bank, t.after, t.vault, t.trace, t.cpis, t.slot, t.data, loc, t.spend, t.dataAfter)
  }

  ghost function PolicyBefore(t: Turn, loc: nat): Policy
    requires Accepted(t, loc)
  {
    Meaning(t.data[loc..])
  }

  ghost function PolicyAfter(t: Turn, loc: nat): Policy
    requires Accepted(t, loc)
  {
    Meaning(t.dataAfter[loc..])
  }

  /** What the vault lost of an asset, net over everything it held. */
  ghost function Fall(t: Turn, loc: nat, a: L.Asset): nat
    requires Accepted(t, loc)
  {
    match a
    case Sol => SatSub(t.bank[t.vault].lamports, t.after[t.vault].lamports)
    case Token(mint) => NetFall(t.bank, t.after, t.vault, mint)
  }

  /** The asset is SOL, or a mint the vault holds no more of than 64 bits count. */
  ghost predicate Countable(t: Turn, loc: nat, a: L.Asset)
    requires Accepted(t, loc)
  {
    a.Token? ==> HoldingFits(t.bank, t.vault, a.mint)
  }

  lemma FallIsSpent(t: Turn, loc: nat, a: L.Asset)
    requires Accepted(t, loc) && Countable(t, loc, a)
    ensures Fall(t, loc, a) == L.AmountOf(a, t.spend)
  {
  }

  /**
   What the processor leaves in the account is what an Execute step of the wallet's state machine
   asks for: the stored policy charged with what the vault lost, lamports included.
   */
  lemma AcceptedIsStep(t: Turn, loc: nat)
    requires Accepted(t, loc)
    ensures N.ChargedBy(t.data[loc..], t.dataAfter[loc..], t.spend)
    ensures N.Settled(t.data[loc..], t.dataAfter[loc..], t.spend) && |t.dataAfter[loc..]| == |t.data[loc..]|
    ensures t.spend.slot == t.slot && t.spend.sol as int == Fall(t, loc, L.Sol)
  {
    var before, after := t.data[loc..], t.dataAfter[loc..];
    assert before[0..] == before && after[0..] == after;
  }

  predicate IsSolBound(r: Rule) {
    r.SolCap? || r.SolRate?
  }

  /** SOL leaves the vault only if some action names it, and every cap and rate on it had room for what left. */
  lemma SolFallsOnlyIfNamed(t: Turn, loc: nat)
    requires Accepted(t, loc) && Fall(t, loc, L.Sol) > 0
    ensures NamesSol(PolicyBefore(t, loc))
    ensures t.spend.sol as int == Fall(t, loc, L.Sol)
    ensures forall i :: 0 <= i < |PolicyBefore(t, loc)| && IsSolBound(PolicyBefore(t, loc)[i].rule) ==>
              Room(PolicyBefore(t, loc)[i], t.spend.sol, t.slot)
  {
    var p := PolicyBefore(t, loc);
    forall i | 0 <= i < |p| && IsSolBound(p[i].rule)
      ensures Room(p[i], t.spend.sol, t.slot)
    {
      assert p[i].rule.NamesSol();
    }
  }

  /** A mint leaves it only if some action names it, and every action naming it had room for what left. */
  lemma MintFallsOnlyIfNamed(t: Turn, loc: nat, mint: Key)
    requires Accepted(t, loc) && HoldingFits(t.bank, t.vault, mint) && Fall(t, loc, L.Token(mint)) > 0
    ensures NamesMint(PolicyBefore(t, loc), mint)
    ensures t.spend.TokenOut(mint) as int == Fall(t, loc, L.Token(mint))
    ensures forall i :: 0 <= i < |PolicyBefore(t, loc)| && PolicyBefore(t, loc)[i].rule.NamesMint(mint) ==>
              Room(PolicyBefore(t, loc)[i], t.spend.TokenOut(mint), t.slot)
  {
    var p := PolicyBefore(t, loc);
    OnlyNamedMintsFall(p, t.spend, mint);
    forall i | 0 <= i < |p| && p[i].rule.NamesMint(mint)
      ensures Room(p[i], t.spend.TokenOut(mint), t.slot)
    {
      assert p[i].rule.NamesMint(RuleMint(p[i].rule));
    }
  }

  /** A per-transaction limit bounds every dip between two points of the call loop, and the net spend. */
  lemma PerTxBoundsEveryDip(t: Turn, loc: nat, k: nat, i: nat, j: nat)
    requires Accepted(t, loc) && k < |PolicyBefore(t, loc)| && PolicyBefore(t, loc)[k].rule.SolPerTx?
    requires i <= j < |t.trace|
    ensures t.trace[i] - t.trace[j] <= PolicyBefore(t, loc)[k].rule.max
  {
    GrossDominates(t.trace, i, j);
    assert PolicyBefore(t, loc)[k].rule.NamesSol();
  }

  // ---------------------------------------------------------------------------
  // Histories
  // ---------------------------------------------------------------------------

  /** Each Execute finds the policy bytes the one before it left. */
  ghost predicate History(ts: seq<Turn>, loc: nat) {
    && (forall i :: 0 <= i < |ts| ==> Accepted(ts[i], loc))
    && (forall i :: 0 <= i < |ts| - 1 ==> ts[i + 1].data[loc..] == ts[i].dataAfter[loc..])
  }

  ghost function Spends(ts: seq<Turn>): (ss: seq<Spend>)
    ensures |ss| == |ts| && forall i :: 0 <= i < |ts| ==> ss[i] == ts[i].spend
  {
    seq(|ts|, i requires 0 <= i < |ts| => ts[i].spend)
  }

  /** What the vault lost of an asset in the first `n` Executes. */
  ghost function TotalFall(ts: seq<Turn>, loc: nat, a: L.Asset, n: nat): nat
    requires History(ts, loc) && n <= |ts|
  {
    if n == 0 then 0 else TotalFall(ts, loc, a, n - 1) + Fall(ts[n - 1], loc, a)
  }

  lemma TurnCharges(t: Turn, loc: nat)
    requires Accepted(t, loc)
    ensures Verdict(PolicyBefore(t, loc), t.spend).None?
    ensures PolicyAfter(t, loc) == Next(PolicyBefore(t, loc), t.spend)
  {
    VerdictMeansPermitted(PolicyBefore(t, loc), t.spend);
  }

  /** A run extended by one more spend. */
  lemma AfterNext(p: Policy, run: seq<Spend>, n: nat)
    requires n < |run|
    ensures L.After(p, run[..n + 1]) == Next(L.After(p, run[..n]), run[n])
  {
    var upto := run[..n + 1];
    assert upto[..n] == run[..n];
  }

  lemma TotalNext(p: Policy, run: seq<Spend>, a: L.Asset, n: nat)
    requires 0 < n <= |run| && Verdict(L.After(p, run[..n - 1]), run[n - 1]).None?
    ensures L.Total(p, run[..n], a) == L.Total(p, run[..n - 1], a) + L.AmountOf(a, run[n - 1])
  {
    var upto := run[..n];
    assert upto[..n - 1] == run[..n - 1];
  }

  /** The `n`-th Execute counts with all it took. */
  lemma TurnCounts(ts: seq<Turn>, loc: nat, a: L.Asset, n: nat)
    requires History(ts, loc) && 0 < n <= |ts| && Countable(ts[n - 1], loc, a)
    ensures var p, run := PolicyBefore(ts[0], loc), Spends(ts);
            L.Total(p, run[..n], a) == L.Total(p, run[..n - 1], a) + Fall(ts[n - 1], loc, a)
  {
    HistoryIsRun(ts, loc, n - 1);
    TurnCharges(ts[n - 1], loc);
    FallIsSpent(ts[n - 1], loc, a);
    TotalNext(PolicyBefore(ts[0], loc), Spends(ts), a, n);
  }

  /** The bytes each Execute finds are the granted policy charged with everything spent before it. */
  lemma {:induction false} HistoryIsRun(ts: seq<Turn>, loc: nat, n: nat)
    requires History(ts, loc) && n < |ts|
    ensures PolicyBefore(ts[n], loc) == L.After(PolicyBefore(ts[0], loc), Spends(ts)[..n])
    ensures PolicyAfter(ts[n], loc) == L.After(PolicyBefore(ts[0], loc), Spends(ts)[..n + 1])
  {
    assert Accepted(ts[n], loc);
    if n > 0 {
      HistoryIsRun(ts, loc, n - 1);
      assert ts[n].data[loc..] == ts[n - 1].dataAfter[loc..];
    }
    TurnCharges(ts[n], loc);
    AfterNext(PolicyBefore(ts[0], loc), Spends(ts), n);
  }

  lemma {:induction false} TotalIsFall(ts: seq<Turn>, loc: nat, a: L.Asset, n: nat)
    requires History(ts, loc) && ts != [] && n <= |ts| && forall i :: 0 <= i < |ts| ==> Countable(ts[i], loc, a)
    ensures L.Total(PolicyBefore(ts[0], loc), Spends(ts)[..n], a) == TotalFall(ts, loc, a, n)
  {
    if n > 0 {
      TotalIsFall(ts, loc, a, n - 1);
      TurnCounts(ts, loc, a, n);
    }
  }

  /** The same for the whole history. */
  lemma WholeHistory(ts: seq<Turn>, loc: nat, a: L.Asset)
    requires History(ts, loc) && ts != [] && forall i :: 0 <= i < |ts| ==> Countable(ts[i], loc, a)
    ensures L.Total(PolicyBefore(ts[0], loc), Spends(ts), a) == TotalFall(ts, loc, a, |ts|)
    ensures PolicyAfter(ts[|ts| - 1], loc) == L.After(PolicyBefore(ts[0], loc), Spends(ts))
  {
    assert Spends(ts)[..|ts|] == Spends(ts);
    HistoryIsRun(ts, loc, |ts| - 1);
    TotalIsFall(ts, loc, a, |ts|);
  }

  /**
   A lifetime cap is an exact ledger on the chain: everything the vault lost of its asset in a
   history is what the `remaining` in the account's bytes fell by.
   */
  lemma CapIsLedgerOfTheVault(ts: seq<Turn>, loc: nat, k: nat)
    requires History(ts, loc) && ts != []
    requires k < |PolicyBefore(ts[0], loc)| && L.CapAsset(PolicyBefore(ts[0], loc)[k].rule).Some?
    requires forall i :: 0 <= i < |ts| ==> Countable(ts[i], loc, L.CapAsset(PolicyBefore(ts[0], loc)[k].rule).value)
    ensures var p, q := PolicyBefore(ts[0], loc), PolicyAfter(ts[|ts| - 1], loc);
            && |q| == |p| && L.CapAsset(q[k].rule) == L.CapAsset(p[k].rule)
            && TotalFall(ts, loc, L.CapAsset(p[k].rule).value, |ts|) == p[k].rule.remaining - q[k].rule.remaining
  {
    WholeHistory(ts, loc, L.CapAsset(PolicyBefore(ts[0], loc)[k].rule).value);
    L.LifetimeCapIsExactLedger(PolicyBefore(ts[0], loc), Spends(ts), k);
  }

  ghost predicate InSlotOrder(ts: seq<Turn>) {
    forall i, j :: 0 <= i < j < |ts| ==> ts[i].spend.slot <= ts[j].spend.slot
  }

  /** A fresh recurring limit below saturation bounds what the vault loses of its asset by slot `until`. */
  lemma RateBoundsTheVault(ts: seq<Turn>, loc: nat, k: nat, until: nat)
    requires History(ts, loc) && ts != [] && InSlotOrder(ts) && ts[|ts| - 1].spend.slot <= until
    requires k < |PolicyBefore(ts[0], loc)| && L.RateAsset(PolicyBefore(ts[0], loc)[k].rule).Some?
    requires L.Fresh(PolicyBefore(ts[0], loc)[k].rule.meter) && PolicyBefore(ts[0], loc)[k].rule.meter.limit < U64_MAX
    requires forall i :: 0 <= i < |ts| ==> Countable(ts[i], loc, L.RateAsset(PolicyBefore(ts[0], loc)[k].rule).value)
    ensures var r := PolicyBefore(ts[0], loc)[k].rule;
            TotalFall(ts, loc, L.RateAsset(r).value, |ts|) <= L.Allowance(r.meter, until)
  {
    WholeHistory(ts, loc, L.RateAsset(PolicyBefore(ts[0], loc)[k].rule).value);
    L.RecurringLimitHolds(PolicyBefore(ts[0], loc), Spends(ts), k, until, 0);
  }

  predicate InSpan(slot: nat, from: nat, span: nat) {
    from <= slot <= from + span
  }

  /** What it lost in the first `n` Executes at slots from `from` to `from + span`. */
  ghost function FallWithin(ts: seq<Turn>, loc: nat, a: L.Asset, from: nat, span: nat, n: nat): nat
    requires History(ts, loc) && n <= |ts|
  {
    if n == 0 then 0
    else
      FallWithin(ts, loc, a, from, span, n - 1)
      + if InSpan(ts[n - 1].slot, from, span) then Fall(ts[n - 1], loc, a) else 0
  }

  /** The `n`-th Execute is a charge of all it took. */
  lemma TurnIsCharge(ts: seq<Turn>, loc: nat, a: L.Asset, n: nat)
    requires History(ts, loc) && 0 < n <= |ts| && Countable(ts[n - 1], loc, a)
    ensures var cs := L.Charges(PolicyBefore(ts[0], loc), Spends(ts)[..n], a);
            && cs[..n - 1] == L.Charges(PolicyBefore(ts[0], loc), Spends(ts)[..n - 1], a)
            && cs[n - 1].slot == ts[n - 1].slot && cs[n - 1].amount as int == Fall(ts[n - 1], loc, a)
  {
    var p, upto := PolicyBefore(ts[0], loc), Spends(ts)[..n];
    assert upto[..n - 1] == Spends(ts)[..n - 1];
    L.ChargesAt(p, upto, a, n - 1);
    HistoryIsRun(ts, loc, n - 1);
    TurnCharges(ts[n - 1], loc);
    FallIsSpent(ts[n - 1], loc, a);
  }

  lemma {:induction false} WithinIsFall(ts: seq<Turn>, loc: nat, a: L.Asset, from: nat, span: nat, n: nat)
    requires History(ts, loc) && ts != [] && n <= |ts| && forall i :: 0 <= i < |ts| ==> Countable(ts[i], loc, a)
    ensures L.SumWithin(L.Charges(PolicyBefore(ts[0], loc), Spends(ts)[..n], a), from, span)
         == FallWithin(ts, loc, a, from, span, n)
  {
    if n > 0 {
      WithinIsFall(ts, loc, a, from, span, n - 1);
      TurnIsCharge(ts, loc, a, n);
    }
  }

  /** … and what it loses in any `window + 1` slots, by twice the limit. */
  lemma RateBoundsEverySpan(ts: seq<Turn>, loc: nat, k: nat, from: nat)
    requires History(ts, loc) && ts != [] && InSlotOrder(ts)
    requires k < |PolicyBefore(ts[0], loc)| && L.RateAsset(PolicyBefore(ts[0], loc)[k].rule).Some?
    requires L.Fresh(PolicyBefore(ts[0], loc)[k].rule.meter) && PolicyBefore(ts[0], loc)[k].rule.meter.limit < U64_MAX
    requires forall i :: 0 <= i < |ts| ==> Countable(ts[i], loc, L.RateAsset(PolicyBefore(ts[0], loc)[k].rule).value)
    ensures var r := PolicyBefore(ts[0], loc)[k].rule;
            FallWithin(ts, loc, L.RateAsset(r).value, from, r.meter.window, |ts|) <= 2 * r.meter.limit
  {
    var r := PolicyBefore(ts[0], loc)[k].rule;
    assert Spends(ts)[..|ts|] == Spends(ts);
    WithinIsFall(ts, loc, L.RateAsset(r).value, from, r.meter.window, |ts|);
    L.RecurringLimitHolds(PolicyBefore(ts[0], loc), Spends(ts), k, ts[|ts| - 1].spend.slot, from);
  }

  // ---------------------------------------------------------------------------
  // What a passkey signed is what runs
  // ---------------------------------------------------------------------------

  /** An immediate Execute a passkey authenticated. */
  datatype Signed = Signed(data: seq<byte>, programId: Key, list: C.Listing, bytes: seq<byte>, env: Env, slot: u64)

  predicate Holds(sha: Sha, x: Signed) {
    AssertionHolds(sha, x.data, x.programId, x.list, x.bytes, x.env, x.slot)
  }

  function CallOf(sha: Sha, x: Signed): P.Call
    requires Holds(sha, x)
  {
    PasskeyCall(sha, x.programId, x.list, x.bytes, x.env, x.slot).value
  }

  function MessageOf(sha: Sha, x: Signed): seq<byte>
    requires Holds(sha, x)
  {
    P.SignedMessage(sha, P.AssertionOf(CallOf(sha, x)))
  }

  function InstructionsOf(x: Signed): seq<C.CompactInstruction>
    requires C.Parse(x.bytes).Some?
  {
    C.Parse(x.bytes).value.0
  }

  /** The inner calls it issues, for its payer and the wallet's vault. */
  function Issued(x: Signed, vault: Key): Option<seq<C.Cpi>>
    requires C.Parse(x.bytes).Some? && x.list.keys != []
  {
    C.IssueAll(InstructionsOf(x), x.list, C.Context(x.list.keys[0], vault, None))
  }

  lemma PayloadOf(sha: Sha, x: Signed)
    requires Holds(sha, x)
    ensures x.list.keys != [] && C.Parse(x.bytes).Some? && C.Preimage(InstructionsOf(x), x.list).Some?
    ensures var used := C.Parse(x.bytes).value.1;
            && 0 <= used <= |x.bytes|
            && CallOf(sha, x).signedPayload == x.bytes[..used] + sha(C.Preimage(InstructionsOf(x), x.list).value)
            && CallOf(sha, x).accounts == x.list.keys
            && CallOf(sha, x).discriminator == 4 && CallOf(sha, x).payload == x.bytes[used..]
  {
  }

  /**
   One signed message, accepted for two Executes on any accounts, lists and transactions, issues
   the same inner calls for the same wallet and payer, unless a named pair of strings collides.
   */
  lemma SameMessageSameCalls(sha: Sha, x: Signed, y: Signed, vault: Key)
    requires Holds(sha, x) && Holds(sha, y) && MessageOf(sha, x) == MessageOf(sha, y)
    requires !P.BrokenHash(sha, x.data, CallOf(sha, x), y.data, CallOf(sha, y))
    ensures C.Parse(x.bytes).Some? && C.Parse(y.bytes).Some? && x.list.keys != [] && y.list.keys != []
    ensures P.WalletOf(x.data) == P.WalletOf(y.data) && x.list.keys[0] == y.list.keys[0]
    ensures C.Preimage(InstructionsOf(x), x.list).Some? && C.Preimage(InstructionsOf(y), y.list).Some?
    ensures || Collides(sha, C.Preimage(InstructionsOf(x), x.list).value, C.Preimage(InstructionsOf(y), y.list).value)
            || (Issued(x, vault).Some? && Issued(x, vault) == Issued(y, vault))
  {
    PayloadOf(sha, x);
    PayloadOf(sha, y);
    P.MessageBindsIntent(sha, x.data, CallOf(sha, x), y.data, CallOf(sha, y));
    var (i, j) := (C.Parse(x.bytes).value.1, C.Parse(y.bytes).value.1);
    var (a, b) := (C.Preimage(InstructionsOf(x), x.list).value, C.Preimage(InstructionsOf(y), y.list).value);
    P.SameTail(x.bytes[..i], sha(a), y.bytes[..j], sha(b));
    if a == b {
      assert x.bytes[..i] <= y.bytes;
      C.SameBytesSameRun(x.bytes, y.bytes, x.list, y.list, C.Context(x.list.keys[0], vault, None));
    }
  }
}
