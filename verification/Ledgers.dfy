/**
 Spending over whole runs. A run is any sequence of Executes by one signer; a refused Execute
 changes nothing and spends nothing. Lifetime caps are exact ledgers, and recurring limits
 bound every period, every run and every span of `window + 1` slots.
 */
module Ledgers {
  import opened Bytes
  import opened Limits

  /** The policy after a run. */
  function After(p: Policy, run: seq<Spend>): (q: Policy)
    ensures |q| == |p|
    decreases |run|
  {
    if run == [] then p else Next(After(p, run[..|run| - 1]), run[|run| - 1])
  }

  /** The spend the i-th Execute of a run actually made: nothing when it was refused. */
  predicate Accepted(p: Policy, run: seq<Spend>, i: nat)
    requires i < |run|
  {
    Verdict(After(p, run[..i]), run[i]).None?
  }

  /** Which asset an amount is counted in. */
  datatype Asset = Sol | Token(mint: Key)

  function AmountOf(a: Asset, s: Spend): u64 {
    match a
    case Sol => s.sol
    case Token(m) => s.TokenOut(m)
  }

  function Total(p: Policy, run: seq<Spend>, a: Asset): nat
    decreases |run|
  {
    if run == [] then 0
    else
      var n := |run| - 1;
      Total(p, run[..n], a) + if Accepted(p, run, n) then AmountOf(a, run[n]) else 0
  }

  function CapAsset(r: Rule): Option<Asset> {
    match r
    case SolCap(_) => Some(Sol)
    case TokenCap(m, _) => Some(Token(m))
    case _ => None
  }

  /** An admitted spend fits under every cap on its asset. */
  lemma CapRoom(p: Policy, s: Spend, k: nat)
    requires Verdict(p, s).None? && k < |p| && CapAsset(p[k].rule).Some?
    ensures AmountOf(CapAsset(p[k].rule).value, s) > 0 ==>
              !p[k].Expired(s.slot) && AmountOf(CapAsset(p[k].rule).value, s) <= p[k].rule.remaining
  {
    VerdictMeansPermitted(p, s);
    assert p[k].rule.NamesSol() || p[k].rule.NamesMint(RuleMint(p[k].rule));
  }

  /**
   Lifetime caps are exact ledgers: over every run, what the asset lost equals the fall of
   `remaining`, so it never exceeds the cap the granter wrote.
   */
  lemma {:induction false} LifetimeCapIsExactLedger(p: Policy, run: seq<Spend>, k: nat)
    requires k < |p| && CapAsset(p[k].rule).Some?
    ensures CapAsset(After(p, run)[k].rule) == CapAsset(p[k].rule)
    ensures After(p, run)[k].expiresAt == p[k].expiresAt
    ensures Total(p, run, CapAsset(p[k].rule).value) == p[k].rule.remaining - After(p, run)[k].rule.remaining
    decreases |run|
  {
    if run != [] {
      var n := |run| - 1;
      LifetimeCapIsExactLedger(p, run[..n], k);
      if Accepted(p, run, n) {
        CapRoom(After(p, run[..n]), run[n], k);
      }
    }
  }

  // ---------------------------------------------------------------------------
  // Recurring limits: one meter fed a sequence of charges
  // ---------------------------------------------------------------------------

  /** One accepted spend as a meter sees it. */
  datatype Charge = Charge(slot: u64, amount: u64)

  /** Zero amounts pass without touching the meter. */
  function Feed(m: Meter, c: Charge): Meter {
    if c.amount > 0 then m.Charge(c.amount, c.slot) else m
  }

  function FeedAll(m: Meter, cs: seq<Charge>): Meter
    decreases |cs|
  {
    if cs == [] then m else Feed(FeedAll(m, cs[..|cs| - 1]), cs[|cs| - 1])
  }

  ghost predicate Ordered(cs: seq<Charge>) {
    forall i, j :: 0 <= i < j < |cs| ==> cs[i].slot <= cs[j].slot
  }

  /** Every charge was admitted by the meter as it then stood. */
  ghost predicate AllAdmitted(m: Meter, cs: seq<Charge>) {
    forall i :: 0 <= i < |cs| ==> cs[i].amount > 0 ==> FeedAll(m, cs[..i]).Admits(cs[i].amount, cs[i].slot)
  }

  function Sum(cs: seq<Charge>): nat
    decreases |cs|
  {
    if cs == [] then 0 else Sum(cs[..|cs| - 1]) + cs[|cs| - 1].amount
  }

  /** The part of `cs` that falls in slots [from, from + span]. */
  function SumWithin(cs: seq<Charge>, from: nat, span: nat): nat
    decreases |cs|
  {
    if cs == [] then 0
    else
      var c := cs[|cs| - 1];
      SumWithin(cs[..|cs| - 1], from, span) + if from <= c.slot <= from + span then c.amount else 0
  }

  /** `cs[i]` opened a new period. */
  predicate IsReset(m: Meter, cs: seq<Charge>, i: nat)
    requires i < |cs|
  {
    cs[i].amount > 0 && FeedAll(m, cs[..i]).Resets(cs[i].slot)
  }

  ghost predicate Fresh(m: Meter) {
    m.spent == 0 && m.lastReset == 0
  }

  lemma PrefixRun(m: Meter, cs: seq<Charge>, n: nat)
    requires n <= |cs|
    requires Ordered(cs) && AllAdmitted(m, cs)
    ensures Ordered(cs[..n]) && AllAdmitted(m, cs[..n])
  {
    forall i | 0 <= i < n ensures cs[..n][..i] == cs[..i] {
    }
  }

  /** What every prefix of an admitted run keeps. */
  lemma {:induction false} MeterInvariant(m: Meter, cs: seq<Charge>)
    requires Fresh(m) && m.limit < U64_MAX
    requires Ordered(cs) && AllAdmitted(m, cs)
    ensures var f := FeedAll(m, cs);
            && f.limit == m.limit && f.window == m.window
            && f.spent <= m.limit
            && (cs != [] ==> f.lastReset <= cs[|cs| - 1].slot)
            && (cs == [] ==> f.lastReset == 0)
    decreases |cs|
  {
    if cs != [] {
      var n := |cs| - 1;
      PrefixRun(m, cs, n);
      MeterInvariant(m, cs[..n]);
      if n > 0 {
        assert cs[..n][n - 1] == cs[n - 1];
      }
    }
  }

  lemma SameResets(m: Meter, cs: seq<Charge>, n: nat, j: nat)
    requires j < n <= |cs|
    ensures IsReset(m, cs[..n], j) <==> IsReset(m, cs, j)
  {
    assert cs[..n][..j] == cs[..j];
  }

  lemma LastCharge(m: Meter, cs: seq<Charge>)
    requires cs != []
    ensures var n := |cs| - 1;
            Sum(cs) == Sum(cs[..n]) + cs[n].amount && FeedAll(m, cs) == Feed(FeedAll(m, cs[..n]), cs[n])
  {
  }

  /** A charge that opens no period adds to the counter; one that does starts it. */
  lemma ChargeCounts(m: Meter, c: Charge, limit: nat)
    requires m.limit == limit < U64_MAX && m.spent <= limit && (c.amount > 0 ==> m.Admits(c.amount, c.slot))
    ensures !m.Resets(c.slot) || c.amount == 0 ==> Feed(m, c).spent == m.spent + c.amount
    ensures c.amount <= Feed(m, c).spent <= limit
  {
  }

  /** Since its last reset the meter has counted every lamport, and no more than `limit` of them. */
  lemma {:induction false} PeriodIsBounded(m: Meter, cs: seq<Charge>, i: nat)
    requires Fresh(m) && m.limit < U64_MAX
    requires Ordered(cs) && AllAdmitted(m, cs)
    requires i <= |cs| && forall j :: i < j < |cs| ==> !IsReset(m, cs, j)
    ensures Sum(cs) - Sum(cs[..i]) <= FeedAll(m, cs).spent <= m.limit
    decreases |cs|
  {
    MeterInvariant(m, cs);
    if i == |cs| {
      assert cs[..i] == cs;
    } else {
      var n := |cs| - 1;
      PrefixRun(m, cs, n);
      MeterInvariant(m, cs[..n]);
      forall j | i < j < n
        ensures !IsReset(m, cs[..n], j)
      {
        SameResets(m, cs, n, j);
      }
      assert cs[..n][..i] == cs[..i];
      PeriodIsBounded(m, cs[..n], i);
      LastCharge(m, cs);
      ChargeCounts(FeedAll(m, cs[..n]), cs[n], m.limit);
      assert n > i ==> !IsReset(m, cs, n);
    }
  }

  /** Resets are more than `window` slots apart. */
  lemma {:induction false} ResetsAreApart(m: Meter, cs: seq<Charge>, i: nat, j: nat)
    requires Fresh(m) && m.limit < U64_MAX
    requires Ordered(cs) && AllAdmitted(m, cs)
    requires i < j < |cs| && IsReset(m, cs, i) && IsReset(m, cs, j)
    ensures cs[j].slot - cs[i].slot > m.window
  {
    PrefixRun(m, cs, j);
    MeterInvariant(m, cs[..j]);
    LastResetCovers(m, cs, i, j);
  }

  lemma {:induction false} LastResetCovers(m: Meter, cs: seq<Charge>, i: nat, j: nat)
    requires Ordered(cs)
    requires i < j <= |cs| && IsReset(m, cs, i)
    ensures FeedAll(m, cs[..j]).lastReset >= cs[i].slot
    decreases j
  {
    assert cs[..j][..j - 1] == cs[..j - 1];
    if i < j - 1 {
      LastResetCovers(m, cs, i, j - 1);
    }
  }

  /** Whole periods of `w + 1` slots in `t`, by repeated subtraction. */
  function Periods(t: nat, w: nat): nat {
    if t <= w then 0 else 1 + Periods(t - w - 1, w)
  }

  function Times(x: nat, n: nat): nat {
    if n == 0 then 0 else x + Times(x, n - 1)
  }

  lemma {:induction false} PeriodsBounds(t: nat, w: nat)
    ensures Times(w + 1, Periods(t, w)) <= t <= Times(w + 1, Periods(t, w)) + w
  {
    if t > w {
      PeriodsBounds(t - w - 1, w);
    }
  }

  lemma QuotientIsUnique(t: nat, d: nat, q: nat)
    requires d > 0 && d * q <= t < d * q + d
    ensures t / d == q
  {
    var k, r := t / d - q, t % d;
    assert t == d * (t / d) + r;
    assert d * (t / d) == d * q + d * k;
    assert k > 0 ==> d * k >= d;
    assert k < 0 ==> d * k + d <= 0;
  }

  lemma PeriodsIsDiv(t: nat, w: nat)
    ensures Periods(t, w) == t / (w + 1)
  {
    PeriodsBounds(t, w);
    TimesIsProduct(w + 1, Periods(t, w));
    QuotientIsUnique(t, w + 1, Periods(t, w));
  }

  lemma {:induction false} TimesIsProduct(x: nat, n: nat)
    ensures Times(x, n) == x * n
  {
    if n > 0 {
      TimesIsProduct(x, n - 1);
    }
  }

  lemma {:induction false} PeriodsMonotone(a: nat, b: nat, w: nat)
    requires a <= b
    ensures Periods(a, w) <= Periods(b, w)
  {
    if a > w {
      PeriodsMonotone(a - w - 1, b - w - 1, w);
    }
  }

  lemma {:induction false} TimesMonotone(x: nat, a: nat, b: nat)
    requires a <= b
    ensures Times(x, a) <= Times(x, b)
    decreases b
  {
    if a < b {
      TimesMonotone(x, a, b - 1);
    }
  }

  /** The strengthened induction behind `RunIsBounded`. */
  lemma {:induction false} RunAccounting(m: Meter, cs: seq<Charge>)
    requires Fresh(m) && m.limit < U64_MAX
    requires Ordered(cs) && AllAdmitted(m, cs)
    ensures var f := FeedAll(m, cs); Sum(cs) <= Times(m.limit, Periods(f.lastReset, m.window)) + f.spent
    decreases |cs|
  {
    if cs != [] {
      var n := |cs| - 1;
      PrefixRun(m, cs, n);
      RunAccounting(m, cs[..n]);
      MeterInvariant(m, cs[..n]);
      if IsReset(m, cs, n) {
        var last, slot := FeedAll(m, cs[..n]).lastReset, cs[n].slot;
        PeriodsMonotone(last, slot - m.window - 1, m.window);
        TimesMonotone(m.limit, Periods(last, m.window) + 1, Periods(slot, m.window));
      }
    }
  }

  /** The most a run ending by slot `t` may spend: `limit` per started period. */
  function Allowance(m: Meter, t: nat): nat {
    m.limit * (t / (m.window + 1) + 1)
  }

  lemma AllowanceIsTimes(m: Meter, t: nat)
    ensures Allowance(m, t) == Times(m.limit, Periods(t, m.window) + 1)
  {
    TimesIsProduct(m.limit, Periods(t, m.window) + 1);
    PeriodsIsDiv(t, m.window);
  }

  lemma RunWithinPeriods(m: Meter, cs: seq<Charge>, t: nat)
    requires Fresh(m) && m.limit < U64_MAX
    requires Ordered(cs) && AllAdmitted(m, cs)
    requires cs != [] ==> cs[|cs| - 1].slot <= t
    ensures Sum(cs) <= Times(m.limit, Periods(t, m.window) + 1)
  {
    RunAccounting(m, cs);
    MeterInvariant(m, cs);
    var last := FeedAll(m, cs).lastReset;
    PeriodsMonotone(last, t, m.window);
    TimesMonotone(m.limit, Periods(last, m.window), Periods(t, m.window));
  }

  /** A run ending by slot `t` spends at most `limit` per started period of `window + 1` slots. */
  lemma RunIsBounded(m: Meter, cs: seq<Charge>, t: nat)
    requires Fresh(m) && m.limit < U64_MAX
    requires Ordered(cs) && AllAdmitted(m, cs)
    requires cs != [] ==> cs[|cs| - 1].slot <= t
    ensures Sum(cs) <= Allowance(m, t)
  {
    RunWithinPeriods(m, cs, t);
    AllowanceIsTimes(m, t);
  }

  /** The strengthened induction behind `SpanIsBounded`. */
  lemma {:induction false} SpanAccounting(m: Meter, cs: seq<Charge>, from: nat)
    requires Fresh(m) && m.limit < U64_MAX
    requires Ordered(cs) && AllAdmitted(m, cs)
    ensures var f := FeedAll(m, cs);
            var within := SumWithin(cs, from, m.window);
            && (cs != [] && cs[|cs| - 1].slot < from ==> within == 0)
            && (f.lastReset < from ==> within <= f.spent)
            && (from <= f.lastReset <= from + m.window ==> within <= m.limit + f.spent)
            && within <= 2 * m.limit
    decreases |cs|
  {
    if cs != [] {
      var n := |cs| - 1;
      PrefixRun(m, cs, n);
      SpanAccounting(m, cs[..n], from);
      MeterInvariant(m, cs[..n]);
      MeterInvariant(m, cs);
      if n > 0 {
        assert cs[..n][n - 1] == cs[n - 1];
      }
    }
  }

  /** Any `window + 1` consecutive slots see at most twice the limit. */
  lemma SpanIsBounded(m: Meter, cs: seq<Charge>, from: nat)
    requires Fresh(m) && m.limit < U64_MAX
    requires Ordered(cs) && AllAdmitted(m, cs)
    ensures SumWithin(cs, from, m.window) <= 2 * m.limit
  {
    SpanAccounting(m, cs, from);
  }

  ghost predicate AdmittedRun(m: Meter, cs: seq<Charge>) {
    Ordered(cs) && AllAdmitted(m, cs)
  }

  /** From charge `i` on, no later charge opens a new period. */
  ghost predicate OnePeriod(m: Meter, cs: seq<Charge>, i: nat) {
    i <= |cs| && forall j :: i < j < |cs| ==> !IsReset(m, cs, j)
  }

  /** What is spent between two resets. */
  ghost predicate PeriodBounded(m: Meter, cs: seq<Charge>, i: nat) {
    AdmittedRun(m, cs) && OnePeriod(m, cs, i) ==> Sum(cs) - Sum(cs[..i]) <= m.limit
  }

  /** What a run ending by slot `t` spends. */
  ghost predicate RunBounded(m: Meter, cs: seq<Charge>, t: nat) {
    AdmittedRun(m, cs) && (cs != [] ==> cs[|cs| - 1].slot <= t) ==> Sum(cs) <= Allowance(m, t)
  }

  /** What `window + 1` slots from `from` on see. */
  ghost predicate SpanBounded(m: Meter, cs: seq<Charge>, from: nat) {
    AdmittedRun(m, cs) ==> SumWithin(cs, from, m.window) <= 2 * m.limit
  }

  ghost predicate BoundsPeriods(m: Meter) {
    forall cs: seq<Charge>, i: nat :: PeriodBounded(m, cs, i)
  }

  ghost predicate BoundsRuns(m: Meter) {
    forall cs: seq<Charge>, t: nat :: RunBounded(m, cs, t)
  }

  ghost predicate BoundsSpans(m: Meter) {
    forall cs: seq<Charge>, from: nat :: SpanBounded(m, cs, from)
  }

  /** The whole promise of a recurring limit: every period, every run and every span. */
  ghost predicate KeepsItsPromise(m: Meter) {
    BoundsPeriods(m) && BoundsRuns(m) && BoundsSpans(m)
  }

  /** Charges in slot 0 that a saturating meter admits: 2^64 - 1, again and again. */
  function Overrun(): seq<Charge> {
    [Charge(0, U64_MAX), Charge(0, U64_MAX), Charge(0, U64_MAX)]
  }

  lemma OverrunFeeds(m: Meter)
    requires Fresh(m) && m.limit == U64_MAX
    ensures AdmittedRun(m, Overrun()) && OnePeriod(m, Overrun(), 0)
  {
    var cs, full := Overrun(), Meter(U64_MAX, U64_MAX, m.window, 0);
    assert m.Charge(U64_MAX, 0) == full && full.Charge(U64_MAX, 0) == full;
    assert cs[..1][..0] == [] && cs[..2][..1] == cs[..1];
    assert FeedAll(m, cs[..0]) == m && FeedAll(m, cs[..1]) == full && FeedAll(m, cs[..2]) == full;
  }

  lemma OverrunSums(window: nat)
    ensures Sum(Overrun()) == 3 * U64_MAX && Sum(Overrun()[..0]) == 0 && SumWithin(Overrun(), 0, window) == 3 * U64_MAX
  {
    var cs := Overrun();
    assert cs[..2][..1] == [cs[0]] && cs[..2][..1][..0] == [];
    assert Sum(cs[..2]) == Sum(cs[..2][..1]) + U64_MAX;
    assert SumWithin(cs[..2], 0, window) == SumWithin(cs[..2][..1], 0, window) + U64_MAX;
  }

  /** At 2^64 - 1 the same three charges break every one of the bounds. */
  lemma SaturatedMeterOverruns(m: Meter)
    requires Fresh(m) && m.limit == U64_MAX
    ensures !PeriodBounded(m, Overrun(), 0)
    ensures !RunBounded(m, Overrun(), 0)
    ensures !SpanBounded(m, Overrun(), 0)
  {
    OverrunFeeds(m);
    OverrunSums(m.window);
    assert 0 / (m.window + 1) == 0;
  }

  lemma BelowSaturation(m: Meter)
    requires Fresh(m) && m.limit < U64_MAX
    ensures KeepsItsPromise(m)
  {
    forall cs: seq<Charge>, i: nat
      ensures PeriodBounded(m, cs, i)
    {
      if AdmittedRun(m, cs) && OnePeriod(m, cs, i) {
        PeriodIsBounded(m, cs, i);
      }
    }
    forall cs: seq<Charge>, t: nat
      ensures RunBounded(m, cs, t)
    {
      if AdmittedRun(m, cs) && (cs != [] ==> cs[|cs| - 1].slot <= t) {
        RunIsBounded(m, cs, t);
      }
    }
    forall cs: seq<Charge>, from: nat
      ensures SpanBounded(m, cs, from)
    {
      if AdmittedRun(m, cs) {
        SpanIsBounded(m, cs, from);
      }
    }
  }

  /**
   A fresh recurring limit keeps its promise exactly when it is below 2^64 - 1, and so does each
   of the three bounds alone: at that one value the counter saturates at the limit and admits
   everything after it.
   */
  lemma RecurringLimitBoundsIff(m: Meter)
    requires Fresh(m)
    ensures KeepsItsPromise(m) <==> m.limit < U64_MAX
    ensures BoundsPeriods(m) <==> m.limit < U64_MAX
    ensures BoundsRuns(m) <==> m.limit < U64_MAX
    ensures BoundsSpans(m) <==> m.limit < U64_MAX
  {
    if m.limit < U64_MAX {
      BelowSaturation(m);
    } else {
      SaturatedMeterOverruns(m);
    }
  }

  // ---------------------------------------------------------------------------
  // Recurring limits exactly, in terms of the charges alone
  // ---------------------------------------------------------------------------

  /** The open period: when it began, and what was charged in it. */
  datatype Period = Period(start: int, sum: int)

  /** A charge more than `window` slots after the start of the open period begins the next one. */
  function PeriodAfter(first: Period, window: int, cs: seq<Charge>): Period
    decreases |cs|
  {
    if cs == [] then first
    else
      var c, open := cs[|cs| - 1], PeriodAfter(first, window, cs[..|cs| - 1]);
      if c.amount == 0 then open
      else if c.slot - open.start > window then Period(c.slot, c.amount)
      else open.(sum := open.sum + c.amount)
  }

  /** What a charge must fit: the whole limit when it begins a period, what the open one has left otherwise. */
  predicate FitsPeriod(open: Period, limit: int, window: int, amount: int, slot: int) {
    if slot > open.start + window then amount <= limit else amount <= limit - open.sum
  }

  lemma MeterIsPeriod(m: Meter, open: Period, amount: u64, slot: u64)
    requires m.limit < U64_MAX && open == Period(m.lastReset, m.spent)
    ensures m.Admits(amount, slot) <==> FitsPeriod(open, m.limit, m.window, amount, slot)
    ensures amount > 0 && m.Admits(amount, slot) ==>
              var f := m.Charge(amount, slot);
              && f.limit == m.limit && f.window == m.window && f.spent <= f.limit
              && Period(f.lastReset, f.spent)
                 == if slot - open.start > m.window then Period(slot, amount) else open.(sum := open.sum + amount)
  {
  }

  /**
   A recurring limit is exact both ways. Whatever was charged before, the counters are the open
   period's start and sum, and the next charge is admitted if and only if it fits that period: a
   limit renews as soon as the window has passed, and not before.
   */
  lemma {:induction false} MeterExactly(m: Meter, cs: seq<Charge>)
    requires m.limit < U64_MAX && m.spent <= m.limit && AllAdmitted(m, cs)
    ensures var f, open := FeedAll(m, cs), PeriodAfter(Period(m.lastReset, m.spent), m.window, cs);
            && f.limit == m.limit && f.window == m.window && f.lastReset as int == open.start
            && f.spent as int == open.sum
            && f.spent <= m.limit
            && forall amount: u64, slot: u64 ::
                 f.Admits(amount, slot) <==> FitsPeriod(open, m.limit, m.window, amount, slot)
    decreases |cs|
  {
    var first := Period(m.lastReset, m.spent);
    if cs != [] {
      var n := |cs| - 1;
      forall i | 0 <= i < n ensures cs[..n][..i] == cs[..i] {
      }
      MeterExactly(m, cs[..n]);
      MeterIsPeriod(FeedAll(m, cs[..n]), PeriodAfter(first, m.window, cs[..n]), cs[n].amount, cs[n].slot);
    }
    forall amount: u64, slot: u64
      ensures FeedAll(m, cs).Admits(amount, slot) <==>
              FitsPeriod(PeriodAfter(first, m.window, cs), m.limit, m.window, amount, slot)
    {
      MeterIsPeriod(FeedAll(m, cs), PeriodAfter(first, m.window, cs), amount, slot);
    }
  }

  // ---------------------------------------------------------------------------
  // The bounds are reached
  // ---------------------------------------------------------------------------

  lemma {:induction false} OneMoreCharge(m: Meter, cs: seq<Charge>, c: Charge)
    requires AdmittedRun(m, cs) && (cs != [] ==> cs[|cs| - 1].slot <= c.slot) && FeedAll(m, cs).Admits(c.amount, c.slot)
    ensures AdmittedRun(m, cs + [c]) && FeedAll(m, cs + [c]) == Feed(FeedAll(m, cs), c)
    ensures Sum(cs + [c]) == Sum(cs) + c.amount
  {
    var all := cs + [c];
    assert all[..|cs|] == cs;
    forall i | 0 <= i < |cs|
      ensures all[i] == cs[i] && all[..i] == cs[..i] && cs[i].slot <= c.slot
    {
      assert i < |cs| - 1 ==> cs[i].slot <= cs[|cs| - 1].slot;
    }
  }

  /** A run that has spent the limit in the period of slot `t`, and all before. */
  ghost predicate SpentUp(m: Meter, cs: seq<Charge>, t: u64) {
    && AdmittedRun(m, cs) && cs != [] && cs[|cs| - 1].slot == t
    && FeedAll(m, cs) == m.(spent := m.limit, lastReset := if t <= m.window then 0 else t)
    && Sum(cs) == Times(m.limit, Periods(t, m.window) + 1)
  }

  lemma FirstPeriod(m: Meter, t: u64)
    requires Fresh(m) && m.limit > 0 && t <= m.window
    ensures SpentUp(m, [Charge(t, m.limit)], t)
  {
    var c := Charge(t, m.limit);
    assert [c][..0] == [] && FeedAll(m, [c][..0]) == m && Sum([c][..0]) == 0;
    assert FeedAll(m, [c]) == m.Charge(m.limit, t);
    assert Times(m.limit, 1) == m.limit + Times(m.limit, 0);
  }

  lemma NextPeriod(m: Meter, cs: seq<Charge>, before: u64, t: u64)
    requires Fresh(m) && m.limit > 0 && t as int == before + m.window + 1 && SpentUp(m, cs, before)
    ensures SpentUp(m, cs + [Charge(t, m.limit)], t)
  {
    OneMoreCharge(m, cs, Charge(t, m.limit));
    assert Periods(t, m.window) == 1 + Periods(before, m.window);
  }

  /** The whole limit every `window + 1` slots, last at slot `t`. */
  lemma {:induction false} SpendUp(m: Meter, t: u64) returns (cs: seq<Charge>)
    requires Fresh(m) && m.limit > 0
    ensures SpentUp(m, cs, t)
  {
    if t <= m.window {
      FirstPeriod(m, t);
      cs := [Charge(t, m.limit)];
    } else {
      cs := SpendUp(m, t - m.window - 1);
      NextPeriod(m, cs, t - m.window - 1, t);
      cs := cs + [Charge(t, m.limit)];
    }
  }

  /** No smaller bound holds for runs: spending the limit as soon as it renews reaches the allowance. */
  lemma RunBoundIsReached(m: Meter, t: u64)
    requires Fresh(m) && m.limit > 0
    ensures exists cs: seq<Charge> ::
              AdmittedRun(m, cs) && cs != [] && cs[|cs| - 1].slot <= t && Sum(cs) == Allowance(m, t)
  {
    var cs := SpendUp(m, t);
    AllowanceIsTimes(m, t);
  }

  /** Nor for spans: the limit at the end of one period and again at the start of the next. */
  lemma SpanBoundIsReached(m: Meter)
    requires Fresh(m) && 0 < m.limit && 0 < m.window < U64_MAX
    ensures exists cs: seq<Charge> :: AdmittedRun(m, cs) && SumWithin(cs, m.window, m.window) == 2 * m.limit
  {
    var c, d := Charge(m.window, m.limit), Charge(m.window + 1, m.limit);
    var cs := [c, d];
    assert cs[..0] == [] && cs[..1] == [c] && [c][..0] == [];
    assert FeedAll(m, cs[..0]) == m && FeedAll(m, cs[..1]) == Feed(m, c);
    assert SumWithin(cs[..1], m.window, m.window) == m.limit;
    assert AdmittedRun(m, cs);
  }

  // ---------------------------------------------------------------------------
  // From meters back to policies
  // ---------------------------------------------------------------------------

  function RateAsset(r: Rule): Option<Asset> {
    match r
    case SolRate(_) => Some(Sol)
    case TokenRate(m, _) => Some(Token(m))
    case _ => None
  }

  /** What a run feeds one recurring rule: the asset's amount, zero for a refused Execute. */
  function Charges(p: Policy, run: seq<Spend>, a: Asset): (cs: seq<Charge>)
    ensures |cs| == |run|
    decreases |run|
  {
    if run == [] then []
    else
      var n := |run| - 1;
      Charges(p, run[..n], a) + [Charge(run[n].slot, if Accepted(p, run, n) then AmountOf(a, run[n]) else 0)]
  }

  ghost predicate SlotsOrdered(run: seq<Spend>) {
    forall i, j :: 0 <= i < j < |run| ==> run[i].slot <= run[j].slot
  }

  /** An admitted spend fits every meter on its asset. */
  lemma RateRoom(p: Policy, s: Spend, k: nat)
    requires Verdict(p, s).None? && k < |p| && RateAsset(p[k].rule).Some?
    ensures AmountOf(RateAsset(p[k].rule).value, s) > 0 ==>
              !p[k].Expired(s.slot) && p[k].rule.meter.Admits(AmountOf(RateAsset(p[k].rule).value, s), s.slot)
  {
    VerdictMeansPermitted(p, s);
    assert p[k].rule.NamesSol() || p[k].rule.NamesMint(RuleMint(p[k].rule));
  }

  lemma {:induction false} ChargesAt(p: Policy, run: seq<Spend>, a: Asset, i: nat)
    requires i < |run|
    ensures Charges(p, run, a)[..i] == Charges(p, run[..i], a)
    ensures Charges(p, run, a)[i] == Charge(run[i].slot, if Accepted(p, run, i) then AmountOf(a, run[i]) else 0)
    decreases |run|
  {
    var n := |run| - 1;
    if i < n {
      ChargesAt(p, run[..n], a, i);
      assert run[..n][..i] == run[..i];
    }
  }

  /** Inside any run, a recurring rule is a meter fed the amounts its asset lost. */
  lemma {:induction false} RuleIsMeter(p: Policy, run: seq<Spend>, k: nat)
    requires k < |p| && RateAsset(p[k].rule).Some?
    ensures var a := RateAsset(p[k].rule).value;
            var cs := Charges(p, run, a);
            && RateAsset(After(p, run)[k].rule) == Some(a)
            && After(p, run)[k].rule.meter == FeedAll(p[k].rule.meter, cs)
            && After(p, run)[k].expiresAt == p[k].expiresAt
            && Sum(cs) == Total(p, run, a)
    decreases |run|
  {
    var a := RateAsset(p[k].rule).value;
    if run != [] {
      var n := |run| - 1;
      RuleIsMeter(p, run[..n], k);
      assert Charges(p, run, a)[..n] == Charges(p, run[..n], a);
      if Accepted(p, run, n) {
        RateRoom(After(p, run[..n]), run[n], k);
      }
    }
  }

  /** … and every charge was one the meter admits, in slot order. */
  lemma ChargesAdmitted(p: Policy, run: seq<Spend>, k: nat)
    requires k < |p| && RateAsset(p[k].rule).Some? && SlotsOrdered(run)
    ensures var cs := Charges(p, run, RateAsset(p[k].rule).value);
            Ordered(cs) && AllAdmitted(p[k].rule.meter, cs)
  {
    var a := RateAsset(p[k].rule).value;
    var m, cs := p[k].rule.meter, Charges(p, run, a);
    forall i | 0 <= i < |cs|
      ensures cs[i].slot == run[i].slot
      ensures cs[i].amount > 0 ==> FeedAll(m, cs[..i]).Admits(cs[i].amount, cs[i].slot)
    {
      ChargesAt(p, run, a, i);
      RuleIsMeter(p, run[..i], k);
      if Accepted(p, run, i) {
        RateRoom(After(p, run[..i]), run[i], k);
      }
    }
  }

  /**
   Over any run with non-decreasing slots, a recurring limit below 2^64 - 1 lets its asset fall
   by at most `limit` per started period, and by at most twice that in any `window + 1` slots.
   */
  lemma RecurringLimitHolds(p: Policy, run: seq<Spend>, k: nat, t: nat, from: nat)
    requires k < |p| && RateAsset(p[k].rule).Some? && SlotsOrdered(run)
    requires Fresh(p[k].rule.meter) && p[k].rule.meter.limit < U64_MAX
    requires run != [] ==> run[|run| - 1].slot <= t
    ensures var m, a := p[k].rule.meter, RateAsset(p[k].rule).value;
            && Total(p, run, a) <= Allowance(m, t)
            && SumWithin(Charges(p, run, a), from, m.window) <= 2 * m.limit
  {
    RuleIsMeter(p, run, k);
    ChargesAdmitted(p, run, k);
    var m, cs := p[k].rule.meter, Charges(p, run, RateAsset(p[k].rule).value);
    if run != [] {
      ChargesAt(p, run, RateAsset(p[k].rule).value, |run| - 1);
    }
    RunIsBounded(m, cs, t);
    SpanIsBounded(m, cs, from);
  }

  /** The i-th Execute of a run opened a new period of the recurring rule `k`. */
  predicate Reopens(p: Policy, run: seq<Spend>, k: nat, i: nat)
    requires k < |p| && RateAsset(p[k].rule).Some? && i < |run|
  {
    && Accepted(p, run, i) && AmountOf(RateAsset(p[k].rule).value, run[i]) > 0
    && RateAsset(After(p, run[..i])[k].rule).Some? && After(p, run[..i])[k].rule.meter.Resets(run[i].slot)
  }

  lemma ReopensIsReset(p: Policy, run: seq<Spend>, k: nat, i: nat)
    requires k < |p| && RateAsset(p[k].rule).Some? && i < |run|
    ensures Reopens(p, run, k, i) <==> IsReset(p[k].rule.meter, Charges(p, run, RateAsset(p[k].rule).value), i)
  {
    ChargesAt(p, run, RateAsset(p[k].rule).value, i);
    RuleIsMeter(p, run[..i], k);
  }

  /** From one new period of a rule to the next, its asset falls by at most `limit`. */
  lemma RecurringPeriodHolds(p: Policy, run: seq<Spend>, k: nat, i: nat)
    requires k < |p| && RateAsset(p[k].rule).Some? && SlotsOrdered(run)
    requires Fresh(p[k].rule.meter) && p[k].rule.meter.limit < U64_MAX
    requires i < |run| && forall j :: i < j < |run| ==> !Reopens(p, run, k, j)
    ensures var a := RateAsset(p[k].rule).value;
            Total(p, run, a) - Total(p, run[..i], a) <= p[k].rule.meter.limit
  {
    var m, a := p[k].rule.meter, RateAsset(p[k].rule).value;
    ChargesAdmitted(p, run, k);
    forall j | i < j < |run| ensures !IsReset(m, Charges(p, run, a), j) {
      ReopensIsReset(p, run, k, j);
    }
    PeriodIsBounded(m, Charges(p, run, a), i);
    ChargesAt(p, run, a, i);
    RuleIsMeter(p, run, k);
    RuleIsMeter(p, run[..i], k);
  }

  /** New periods of a rule open more than `window` slots apart. */
  lemma RecurringResetsApart(p: Policy, run: seq<Spend>, k: nat, i: nat, j: nat)
    requires k < |p| && RateAsset(p[k].rule).Some? && SlotsOrdered(run)
    requires Fresh(p[k].rule.meter) && p[k].rule.meter.limit < U64_MAX
    requires i < j < |run| && Reopens(p, run, k, i) && Reopens(p, run, k, j)
    ensures run[j].slot - run[i].slot > p[k].rule.meter.window
  {
    var m, a := p[k].rule.meter, RateAsset(p[k].rule).value;
    ChargesAdmitted(p, run, k);
    ReopensIsReset(p, run, k, i);
    ReopensIsReset(p, run, k, j);
    ChargesAt(p, run, a, i);
    ChargesAt(p, run, a, j);
    ResetsAreApart(m, Charges(p, run, a), i, j);
  }

  /** The open period of a recurring rule after a run, from the amounts its asset lost. */
  function RulePeriod(p: Policy, run: seq<Spend>, k: nat): Period
    requires k < |p| && RateAsset(p[k].rule).Some?
  {
    var m := p[k].rule.meter;
    PeriodAfter(Period(m.lastReset, m.spent), m.window, Charges(p, run, RateAsset(p[k].rule).value))
  }

  /**
   Inside any policy and after any run, a recurring rule has room for an amount if and only if it
   has not expired and the amount fits the limit, or what the open period has left of it.
   */
  lemma RecurringLimitExactly(p: Policy, run: seq<Spend>, k: nat, amount: u64, slot: u64)
    requires k < |p| && RateAsset(p[k].rule).Some? && SlotsOrdered(run)
    requires p[k].rule.meter.spent <= p[k].rule.meter.limit < U64_MAX
    ensures var m := p[k].rule.meter;
            Room(After(p, run)[k], amount, slot) <==>
            && (p[k].expiresAt == 0 || slot <= p[k].expiresAt)
            && FitsPeriod(RulePeriod(p, run, k), m.limit, m.window, amount, slot)
  {
    var m, a := p[k].rule.meter, RateAsset(p[k].rule).value;
    ChargesAdmitted(p, run, k);
    RuleIsMeter(p, run, k);
    MeterExactly(m, Charges(p, run, a));
    assert FeedAll(m, Charges(p, run, a)).Admits(amount, slot) <==>
           FitsPeriod(RulePeriod(p, run, k), m.limit, m.window, amount, slot);
  }
}
