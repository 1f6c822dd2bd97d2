/**
 Bounded signers over whole runs of the wallet program: as long as a session or an authority
 exists, its stored policy is the one it was granted, charged with the Executes it signed, and
 its caps are ledgers of the lamports those took from the vault.
 */
module PolicyRuns {
  import opened Bytes
  import opened Chain
  import opened Limits
  import opened PolicyEngine
  import opened Narrowing
  import opened Registry
  import opened WalletProgram
  import L = Ledgers

  /** A session or an authority. */
  predicate Bearer(c: Content) {
    c.Authority? || c.Session?
  }

  function PolicyOfBearer(s: State, k: Address): seq<byte> {
    if Bearer(At(s.data, k)) then At(s.data, k).policy else []
  }

  /** An Execute that `k` signed under a policy. */
  predicate SpendsAs(s: State, i: Instr, k: Address) {
    i.Execute? && i.actor == k && |PolicyOfBearer(s, k)| > 0
  }

  // ---------------------------------------------------------------------------
  // One step
  // ---------------------------------------------------------------------------

  lemma EditOnPolicy(d: Records, e: Edit, k: Address)
    requires Fine(d, e) && Bearer(At(d, k)) && Bearer(At(Do(d, e), k))
    ensures if e.Settle? && e.k == k then Settled(At(d, k).policy, At(Do(d, e), k).policy, e.spend)
            else At(Do(d, e), k).policy == At(d, k).policy
  {
  }

  lemma BetweenOnPolicy(s: State, tx: Tx, i: Instr, k: Address)
    requires Enabled(s, tx, i) && Inv(s.data) && Bearer(At(s.data, k))
    ensures Bearer(At(Between(s, i), k)) && At(Between(s, i), k).policy == At(s.data, k).policy
  {
    assert Shaped(s.data, k);
    Untouched(s, tx, i, k);
    if Opening(s, i).Some? {
      OpeningFine(s, tx, i);
    }
  }

  /** The closing edit charges `k` exactly when `k` signed an Execute. */
  predicate Charging(e: Option<Edit>, k: Address) {
    e.Some? && e.value.Settle? && e.value.k == k
  }

  lemma ClosingCharges(s: State, tx: Tx, i: Instr, k: Address)
    ensures Charging(Closing(s, tx, i), k) <==> i.Execute? && i.actor == k
    ensures Charging(Closing(s, tx, i), k) ==> Closing(s, tx, i).value.spend == i.spend
  {
  }

  /** What the closing edit makes of a policy. */
  lemma ClosingOnPolicy(s: State, tx: Tx, i: Instr, k: Address, d: Records)
    requires RuntimeTx(tx) && Enabled(s, tx, i) && Inv(s.data) && d == Made(Between(s, i), Closing(s, tx, i))
    requires Bearer(At(Between(s, i), k)) && Bearer(At(d, k))
    ensures if Charging(Closing(s, tx, i), k)
            then Settled(At(Between(s, i), k).policy, At(d, k).policy, Closing(s, tx, i).value.spend)
            else At(d, k).policy == At(Between(s, i), k).policy
  {
    if Closing(s, tx, i).Some? {
      ClosingFine(s, tx, i);
      EditOnPolicy(Between(s, i), Closing(s, tx, i).value, k);
    }
  }

  /** Only an Execute it signs touches a policy, and then only to charge it. */
  lemma StepOnPolicy(s: State, tx: Tx, i: Instr, t: State, k: Address)
    requires Step(s, tx, i, t) && Inv(s.data) && Bearer(At(s.data, k)) && Bearer(At(t.data, k))
    ensures if i.Execute? && i.actor == k then Settled(At(s.data, k).policy, At(t.data, k).policy, i.spend)
            else At(t.data, k).policy == At(s.data, k).policy
  {
    BetweenOnPolicy(s, tx, i, k);
    ClosingOnPolicy(s, tx, i, k, t.data);
    ClosingCharges(s, tx, i, k);
  }

  // ---------------------------------------------------------------------------
  // Runs
  // ---------------------------------------------------------------------------

  /** `k` is there from `m` to `n`, so it is the same grant throughout. */
  ghost predicate Alive(r: Run, k: Address, m: nat, n: nat)
    requires n < |r.states|
  {
    forall j :: m <= j <= n ==> Bearer(At(r.states[j].data, k))
  }

  predicate SpendsAt(r: Run, n: nat, k: Address)
    requires Lengths(r) && n < |r.instrs|
  {
    SpendsAs(r.states[n], r.instrs[n], k)
  }

  /** What `k` spent from `m` on, before `n`. */
  ghost function SpendsOf(r: Run, k: Address, m: nat, n: nat): seq<Spend>
    requires Lengths(r) && m <= n < |r.states|
    decreases n
  {
    if m == n then []
    else if SpendsAt(r, n - 1, k) then SpendsOf(r, k, m, n - 1) + [SpendAt(r, n - 1)]
    else SpendsOf(r, k, m, n - 1)
  }

  ghost function SpendAt(r: Run, n: nat): Spend
    requires Lengths(r) && n < |r.instrs|
  {
    if r.instrs[n].Execute? then r.instrs[n].spend else Spend(0, 0, [], 0)
  }

  /** What the wallet's vault lost in an Execute. */
  ghost function FallAt(r: Run, n: nat): nat
    requires Lengths(r) && n < |r.instrs| && r.instrs[n].Execute?
  {
    Fall(r.states[n].lamports, r.states[n + 1].lamports, VaultKey(r.instrs[n].wallet))
  }

  /** The lamports the vaults lost to them. */
  ghost function LostTo(r: Run, k: Address, m: nat, n: nat): nat
    requires Lengths(r) && m <= n < |r.states|
    decreases n
  {
    if m == n then 0
    else LostTo(r, k, m, n - 1) + (if SpendsAt(r, n - 1, k) then FallAt(r, n - 1) else 0)
  }

  lemma PolicyStored(r: Run, k: Address, n: nat)
    requires IsRun(r) && Initial(r.states[0]) && n < |r.states| && Bearer(At(r.states[n].data, k))
    ensures Runnable(PolicyOfBearer(r.states[n], k))
  {
    InvReached(r, n);
    assert Shaped(r.states[n].data, k);
  }

  lemma PolicyNext(r: Run, k: Address, n: nat)
    requires IsRun(r) && Initial(r.states[0]) && n < |r.instrs|
    requires Bearer(At(r.states[n].data, k)) && Bearer(At(r.states[n + 1].data, k))
    ensures SpendsAt(r, n, k) ==>
              && ChargedBy(PolicyOfBearer(r.states[n], k), PolicyOfBearer(r.states[n + 1], k), SpendAt(r, n))
              && SpendAt(r, n).sol as int == FallAt(r, n)
    ensures !SpendsAt(r, n, k) ==> PolicyOfBearer(r.states[n + 1], k) == PolicyOfBearer(r.states[n], k)
  {
    InvReached(r, n);
    assert StepAt(r, n);
    StepOnPolicy(r.states[n], r.txs[n], r.instrs[n], r.states[n + 1], k);
  }

  lemma AfterAppend(p: Policy, run: seq<Spend>, s: Spend)
    requires Permitted(L.After(p, run), s)
    ensures L.After(p, run + [s]) == ChargeAll(L.After(p, run), s)
    ensures L.Total(p, run + [s], L.Sol) == L.Total(p, run, L.Sol) + s.sol
  {
    var all := run + [s];
    assert all[..|all| - 1] == run;
    VerdictMeansPermitted(L.After(p, run), s);
  }

  /** The policy `q` at the end, and the lamports lost, of a history from `p`. */
  ghost predicate Accounts(p: seq<byte>, q: seq<byte>, spends: seq<Spend>, lost: nat) {
    && Runnable(p) && Runnable(q)
    && Meaning(q) == L.After(Meaning(p), spends)
    && L.Total(Meaning(p), spends, L.Sol) == lost
  }

  lemma AccountsGrow(p: seq<byte>, q: seq<byte>, spends: seq<Spend>, lost: nat, next: seq<byte>, s: Spend)
    requires Accounts(p, q, spends, lost) && ChargedBy(q, next, s)
    ensures Accounts(p, next, spends + [s], lost + s.sol)
  {
    AfterAppend(Meaning(p), spends, s);
  }

  /** One step on: a charge, or nothing. */
  lemma AccountsStep(
    p: seq<byte>, q: seq<byte>, spends: seq<Spend>, lost: nat, next: seq<byte>, longer: seq<Spend>, more: nat,
    spent: bool, s: Spend)
    requires Accounts(p, q, spends, lost)
    requires spent ==> ChargedBy(q, next, s) && longer == spends + [s] && more == lost + s.sol
    requires !spent ==> next == q && longer == spends && more == lost
    ensures Accounts(p, next, longer, more)
  {
    if spent {
      AccountsGrow(p, q, spends, lost, next, s);
    }
  }

  /** The account of `k` over the run from `m` to `n` adds up. */
  ghost predicate AddsUp(r: Run, k: Address, m: nat, n: nat)
    requires Lengths(r) && m <= n < |r.states|
  {
    Accounts(PolicyOfBearer(r.states[m], k), PolicyOfBearer(r.states[n], k), SpendsOf(r, k, m, n), LostTo(r, k, m, n))
  }

  lemma AddsUpStart(r: Run, k: Address, m: nat)
    requires IsRun(r) && Initial(r.states[0]) && m < |r.states| && Bearer(At(r.states[m].data, k))
    ensures AddsUp(r, k, m, m)
  {
    PolicyStored(r, k, m);
  }

  lemma SpendsNext(r: Run, k: Address, m: nat, n: nat)
    requires Lengths(r) && m < n < |r.states|
    ensures SpendsAt(r, n - 1, k) ==>
              && SpendsOf(r, k, m, n) == SpendsOf(r, k, m, n - 1) + [SpendAt(r, n - 1)]
              && LostTo(r, k, m, n) == LostTo(r, k, m, n - 1) + FallAt(r, n - 1)
    ensures !SpendsAt(r, n - 1, k) ==>
              SpendsOf(r, k, m, n) == SpendsOf(r, k, m, n - 1) && LostTo(r, k, m, n) == LostTo(r, k, m, n - 1)
  {
  }

  lemma AddsUpNext(r: Run, k: Address, m: nat, n: nat)
    requires IsRun(r) && Initial(r.states[0]) && m < n < |r.states| && AddsUp(r, k, m, n - 1)
    requires Bearer(At(r.states[n - 1].data, k)) && Bearer(At(r.states[n].data, k))
    ensures AddsUp(r, k, m, n)
  {
    PolicyNext(r, k, n - 1);
    SpendsNext(r, k, m, n);
    AccountsStep(
      PolicyOfBearer(r.states[m], k), PolicyOfBearer(r.states[n - 1], k), SpendsOf(r, k, m, n - 1),
          LostTo(r, k, m, n - 1),
      PolicyOfBearer(r.states[n], k), SpendsOf(r, k, m, n), LostTo(r, k, m, n), SpendsAt(r, n - 1, k),
          SpendAt(r, n - 1));
  }

  /**
   The stored policy of a living grant is the policy it was granted, charged with every Execute
   it signed since and with nothing else; and the SOL it spent is what the vault lost to it.
   */
  lemma {:induction false} PolicyIsItsHistory(r: Run, k: Address, m: nat, n: nat)
    requires IsRun(r) && Initial(r.states[0]) && m <= n < |r.states| && Alive(r, k, m, n)
    ensures AddsUp(r, k, m, n)
    decreases n
  {
    if m == n {
      AddsUpStart(r, k, m);
    } else {
      PolicyIsItsHistory(r, k, m, n - 1);
      AddsUpNext(r, k, m, n);
    }
  }

  /** No run widens a policy while its bearer exists, whoever acts. */
  lemma {:induction false} NeverWidened(r: Run, k: Address, m: nat, n: nat)
    requires IsRun(r) && Initial(r.states[0]) && m <= n < |r.states| && Alive(r, k, m, n)
    ensures Narrowed(PolicyOfBearer(r.states[m], k), PolicyOfBearer(r.states[n], k))
    decreases n
  {
    if m < n {
      NeverWidened(r, k, m, n - 1);
      PolicyNext(r, k, n - 1);
      var p, q := PolicyOfBearer(r.states[n - 1], k), PolicyOfBearer(r.states[n], k);
      if SpendsAt(r, n - 1, k) {
        SettledNarrows(p, q, r.instrs[n - 1].spend);
      }
      NarrowedTrans(PolicyOfBearer(r.states[m], k), p, q);
    }
  }

  /** A SOL cap is an exact ledger over the run: what the vault lost to its bearer is what it fell by. */
  lemma SolCapIsLedgerOfRun(r: Run, k: Address, m: nat, n: nat, j: nat)
    requires IsRun(r) && Initial(r.states[0]) && m <= n < |r.states| && Alive(r, k, m, n)
    requires Runnable(PolicyOfBearer(r.states[m], k)) && Runnable(PolicyOfBearer(r.states[n], k))
    requires j < |Meaning(PolicyOfBearer(r.states[m], k))| && Meaning(PolicyOfBearer(r.states[m], k))[j].rule.SolCap?
    ensures var p, q := Meaning(PolicyOfBearer(r.states[m], k)), Meaning(PolicyOfBearer(r.states[n], k));
            && |q| == |p| && q[j].rule.SolCap?
            && LostTo(r, k, m, n) == p[j].rule.remaining - q[j].rule.remaining
  {
    PolicyIsItsHistory(r, k, m, n);
    L.LifetimeCapIsExactLedger(Meaning(PolicyOfBearer(r.states[m], k)), SpendsOf(r, k, m, n), j);
  }

  // ---------------------------------------------------------------------------
  // Recurring limits over runs
  // ---------------------------------------------------------------------------

  /** Slots never go back. */
  lemma {:induction false} SlotsGrow(r: Run, m: nat, n: nat)
    requires IsRun(r) && m <= n < |r.states|
    ensures r.states[m].slot <= r.states[n].slot
    decreases n
  {
    if m < n {
      SlotsGrow(r, m, n - 1);
      assert StepAt(r, n - 1);
    }
  }

  /** The spends of a stretch come in slot order, up to the slot it ends in. */
  ghost predicate InOrderBy(spends: seq<Spend>, slot: u64) {
    L.SlotsOrdered(spends) && forall i :: 0 <= i < |spends| ==> spends[i].slot <= slot
  }

  lemma SpendSlot(r: Run, k: Address, n: nat)
    requires IsRun(r) && n < |r.instrs| && SpendsAt(r, n, k)
    ensures r.instrs[n].spend.slot == r.states[n].slot == r.states[n + 1].slot
  {
    assert StepAt(r, n);
  }

  lemma {:induction false} SpendsInOrder(r: Run, k: Address, m: nat, n: nat)
    requires IsRun(r) && m <= n < |r.states|
    ensures InOrderBy(SpendsOf(r, k, m, n), r.states[n].slot)
    decreases n
  {
    if m < n {
      SpendsInOrder(r, k, m, n - 1);
      SlotsGrow(r, n - 1, n);
      if SpendsAt(r, n - 1, k) {
        SpendSlot(r, k, n - 1);
      }
    }
  }

  /**
   A SOL rate below saturation bounds what the vault loses to its bearer over any run, from the
   grant to any later state: `limit` for every started period.
   */
  lemma SolRateBoundsRun(r: Run, k: Address, m: nat, n: nat, j: nat)
    requires IsRun(r) && Initial(r.states[0]) && m <= n < |r.states| && Alive(r, k, m, n)
    requires Runnable(PolicyOfBearer(r.states[m], k))
    requires j < |Meaning(PolicyOfBearer(r.states[m], k))| && Meaning(PolicyOfBearer(r.states[m], k))[j].rule.SolRate?
    requires L.Fresh(Meaning(PolicyOfBearer(r.states[m], k))[j].rule.meter)
    requires Meaning(PolicyOfBearer(r.states[m], k))[j].rule.meter.limit < U64_MAX
    ensures LostTo(r, k, m, n) <= L.Allowance(Meaning(PolicyOfBearer(r.states[m], k))[j].rule.meter, r.states[n].slot)
  {
    PolicyIsItsHistory(r, k, m, n);
    SpendsInOrder(r, k, m, n);
    L.RecurringLimitHolds(Meaning(PolicyOfBearer(r.states[m], k)), SpendsOf(r, k, m, n), j, r.states[n].slot, 0);
  }
}
