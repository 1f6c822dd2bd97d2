/**
 Exactly which clocks the ordered reads may compare expiries with. The SDK reads the clock first
 but lets the scans be answered from older state. With a clock newer than the last reads, a
 session the reads pass over as expired is still live, and what it does next shows in no read.
 */
module StaleClock {
  import opened Bytes
  import opened Chain
  import opened Registry
  import opened WalletProgram
  import opened TrustedSpending
  import opened OrderedReads
  import opened ReadOrder
  import SessionArgs

  /** For this clock and these slots, the verdict is right in every honest run. */
  ghost predicate Sound(clock: u64, a: u64, s: u64, d: u64, v: u64) {
    forall T: Trust, r: Run, q: Times, x: Rows, last: nat, n: nat ::
      Reading(T, r, q, x, last, v) && At4(r, q, clock, a, s, d) && last <= n < |r.states| ==> Safe(T, r.states[n])
  }

  /** The clock and the slots the scans were answered at. */
  ghost predicate At4(r: Run, q: Times, clock: u64, a: u64, s: u64, d: u64) {
    && q.authorities < |r.states| && q.sessions < |r.states| && q.deferreds < |r.states|
    && q.clock == clock && r.states[q.authorities].slot == a
    && r.states[q.sessions].slot == s && r.states[q.deferreds].slot == d
  }

  // ---------------------------------------------------------------------------
  // A wallet whose owner once opened a session for an outsider
  // ---------------------------------------------------------------------------

  const KIND: Kind := Secp256r1(A, PASSKEY, A)
  const SES: Address := SessionKey(W, B)

  const DATA0: Records := map[TOK := TokenWith(None)]
  const DATA1: Records := map[TOK := TokenWith(None), W := Wallet(1), OWN := OwnRecord]

  function Data2(e: u64, delegate: Option<Address>): Records {
    map[TOK := TokenWith(delegate), W := Wallet(1), OWN := OwnRecord.(counter := 1), SES := Session(W, B, e, [])]
  }

  function OwnerTx(rent: nat -> nat): Tx {
    Tx(User(A), {User(A)}, true, {}, rent)
  }

  /** The owner's passkey asks for one session, for the outsider's key. */
  function OpenTx(e: u64, rent: nat -> nat): Tx {
    OwnerTx(rent).(assertions := {Assertion(PASSKEY, User(A), W, 1, ToOpen(B, e, []))})
  }

  const CREATE: Instr := CreateWallet(A, KIND)

  function OpenSession(e: u64): Instr {
    CreateSession(W, OWN, B, e, [])
  }

  function Start(slot: u64): State {
    State(map[], DATA0, slot)
  }

  function Created(slot: u64, rent: nat -> nat): State {
    State(LamportsAfter(Start(slot), OwnerTx(rent), CREATE), DATA1, slot)
  }

  /** The chain with the session open, at `slot`; it was opened at `s0`. */
  function Live(e: u64, s0: u64, rent: nat -> nat, slot: u64): State {
    State(LamportsAfter(Created(s0, rent), OpenTx(e, rent), OpenSession(e)), Data2(e, None), slot)
  }

  lemma CreateRecords(slot: u64)
    ensures Fine(DATA0, Birth(W, KIND)) && Do(DATA0, Birth(W, KIND)) == DATA1
  {
    Distinct();
  }

  lemma CreateStep(slot: u64, rent: nat -> nat)
    requires forall n :: rent(n) == 0
    ensures Step(Start(slot), OwnerTx(rent), CREATE, Created(slot, rent))
  {
    Distinct();
    CreateRecords(slot);
    assert A[0] == 1 && PASSKEY[0] == 2;
    assert CanCreateWallet(Start(slot), OwnerTx(rent), A, KIND);
  }

  lemma OpenRecords(e: u64, slot: u64, rent: nat -> nat)
    ensures Opened(Created(slot, rent), OpenSession(e)) == DATA1[OWN := OwnRecord.(counter := 1)]
    ensures Made(Opened(Created(slot, rent), OpenSession(e)), Some(Registry.Open(W, B, e, []))) == Data2(e, None)
  {
    Distinct();
    SessionArgs.NoActionsAcceptable();
    var d := DATA1[OWN := OwnRecord.(counter := 1)];
    assert Fine(DATA1, Tick(OWN)) && Do(DATA1, Tick(OWN)) == d;
    assert Fine(d, Registry.Open(W, B, e, []));
    assert Do(d, Registry.Open(W, B, e, [])) == Data2(e, None);
  }

  lemma OpenAllowed(e: u64, slot: u64, rent: nat -> nat)
    requires (forall n :: rent(n) == 0) && slot < e <= slot + MAX_SESSION_SLOTS
    ensures CanCreateSession(Created(slot, rent), OpenTx(e, rent), W, OWN, B, e, [])
  {
    Distinct();
    SessionArgs.NoActionsAcceptable();
  }

  lemma OpenStep(e: u64, slot: u64, rent: nat -> nat)
    requires (forall n :: rent(n) == 0) && slot < e <= slot + MAX_SESSION_SLOTS
    ensures Step(Created(slot, rent), OpenTx(e, rent), OpenSession(e), Live(e, slot, rent, slot))
  {
    OpenRecords(e, slot, rent);
    OpenAllowed(e, slot, rent);
  }

  /** Time passes. */
  lemma WaitStep(e: u64, s0: u64, rent: nat -> nat, from: u64, to: u64)
    requires from <= to
    ensures Step(Live(e, s0, rent, from), OwnerTx(rent), Outside(Live(e, s0, rent, to)), Live(e, s0, rent, to))
  {
    var s, t := Live(e, s0, rent, from), Live(e, s0, rent, to);
    EffectsRefl(s, OwnerTx(rent).signers);
    assert t.(slot := s.slot) == s;
  }

  lemma WaitHonest(e: u64, s0: u64, rent: nat -> nat, from: u64, to: u64)
    ensures Honest(TRUST, Live(e, s0, rent, from), OwnerTx(rent), Outside(Live(e, s0, rent, to)), Live(e, s0, rent, to))
  {
    Distinct();
  }

  // ---------------------------------------------------------------------------
  // The run, and the reads in it
  // ---------------------------------------------------------------------------

  /** Opened at `s0`, the chain is then seen at slots `a`, `lo`, `hi` and `v`. */
  datatype Script = Script(e: u64, s0: u64, rent: nat -> nat, a: u64, lo: u64, hi: u64, v: u64)

  ghost predicate Playable(p: Script) {
    && (forall n :: p.rent(n) == 0)
    && p.s0 < p.e <= p.s0 + MAX_SESSION_SLOTS && p.s0 <= p.a <= p.lo <= p.hi <= p.v
  }

  function LiveAt(p: Script, slot: u64): State {
    Live(p.e, p.s0, p.rent, slot)
  }

  function Wait(p: Script, slot: u64): Instr {
    Outside(LiveAt(p, slot))
  }

  function Play(p: Script): Run {
    var tx := OwnerTx(p.rent);
    Run([Start(p.s0), Created(p.s0, p.rent), LiveAt(p, p.s0), LiveAt(p, p.a), LiveAt(p, p.lo), LiveAt(p, p.hi),
        LiveAt(p, p.v)],
        [tx, OpenTx(p.e, p.rent), tx, tx, tx, tx],
        [CREATE, OpenSession(p.e), Wait(p, p.a), Wait(p, p.lo), Wait(p, p.hi), Wait(p, p.v)])
  }

  /** From position 2 on nothing changes but the slot. */
  function SlotAt(p: Script, n: nat): u64
    requires 2 <= n <= 6
  {
    if n == 2 then p.s0 else if n == 3 then p.a else if n == 4 then p.lo else if n == 5 then p.hi else p.v
  }

  lemma PlayedAt(p: Script, n: nat)
    requires 2 <= n < 6
    ensures Play(p).states[n] == LiveAt(p, SlotAt(p, n)) && Play(p).states[n + 1] == LiveAt(p, SlotAt(p, n + 1))
    ensures Play(p).txs[n] == OwnerTx(p.rent) && Play(p).instrs[n] == Wait(p, SlotAt(p, n + 1))
  {
  }

  lemma PlayWaits(p: Script, n: nat)
    requires Playable(p) && 2 <= n < 6
    ensures StepAt(Play(p), n)
  {
    PlayedAt(p, n);
    WaitStep(p.e, p.s0, p.rent, SlotAt(p, n), SlotAt(p, n + 1));
  }

  lemma PlayedFirst(p: Script)
    ensures Play(p).states[0] == Start(p.s0) && Play(p).states[1] == Created(p.s0, p.rent)
    ensures Play(p).states[2] == LiveAt(p, p.s0)
    ensures Play(p).txs[0] == OwnerTx(p.rent) && Play(p).instrs[0] == CREATE
    ensures Play(p).txs[1] == OpenTx(p.e, p.rent) && Play(p).instrs[1] == OpenSession(p.e)
  {
  }

  lemma PlayOpens(p: Script)
    requires Playable(p)
    ensures StepAt(Play(p), 1)
  {
    PlayedFirst(p);
    OpenStep(p.e, p.s0, p.rent);
  }

  lemma PlayCreates(p: Script)
    requires Playable(p)
    ensures StepAt(Play(p), 0)
  {
    PlayedFirst(p);
    CreateStep(p.s0, p.rent);
  }

  lemma RunOfSix(r: Run)
    requires Lengths(r) && |r.instrs| == 6
    requires StepAt(r, 0) && StepAt(r, 1) && forall n :: 2 <= n < 6 ==> StepAt(r, n)
    ensures IsRun(r)
  {
  }

  lemma PlayStarts(p: Script)
    ensures Initial(Play(p).states[0])
  {
    PlayedFirst(p);
  }

  lemma PlayIsRun(p: Script)
    requires Playable(p)
    ensures IsRun(Play(p))
  {
    PlayCreates(p);
    PlayOpens(p);
    forall n | 2 <= n < 6
      ensures StepAt(Play(p), n)
    {
      PlayWaits(p, n);
    }
    RunOfSix(Play(p));
  }

  lemma PlayHonest(p: Script, n: nat)
    requires Playable(p) && 2 <= n < 6
    ensures HonestAt(TRUST, Play(p), n)
  {
    PlayedAt(p, n);
    WaitHonest(p.e, p.s0, p.rent, SlotAt(p, n), SlotAt(p, n + 1));
  }

  /** The last position at each of the four slots. */
  function LastAtA(p: Script): nat {
    if p.a < p.lo then 3 else LastAtLo(p)
  }

  function LastAtLo(p: Script): nat {
    if p.lo < p.hi then 4 else LastAtHi(p)
  }

  function LastAtHi(p: Script): nat {
    if p.hi < p.v then 5 else 6
  }

  /** What every read from position 3 on shows. */
  function Shown(p: Script): Rows {
    Rows([Row(OWN, OwnRecord.(counter := 1))], [Row(SES, Session(W, B, p.e, []))], [], Empty,
        [Row(TOK, TokenWith(None))], [])
  }

  /** Sessions first when `first`, deferred authorizations otherwise. */
  function Reads(p: Script, clock: u64, first: bool): Times {
    Times(clock, LastAtA(p), if first then LastAtLo(p) else LastAtHi(p), if first then LastAtHi(p) else LastAtLo(p),
          (k: Address) => 6, (k: Address) => 6)
  }

  lemma ShownIsThere(p: Script)
    ensures var d := Data2(p.e, None);
            && (forall k :: At(d, k).Authority? ==> Row(k, At(d, k)) in Shown(p).authorities)
            && (forall k :: At(d, k).Session? ==> Row(k, At(d, k)) in Shown(p).sessions)
            && (forall k :: !At(d, k).Deferred?)
            && At(d, VaultKey(W)).Empty?
            && (forall k :: At(d, k).Token? ==> Row(k, At(d, k)) in Shown(p).owned)
            && At(d, OWN) == OwnRecord.(counter := 1)
  {
    Distinct();
  }

  lemma ShownAlone(p: Script, clock: u64)
    requires p.e < clock
    ensures Alone(TRUST, clock, Shown(p))
  {
    assert IsOwn(TRUST, Shown(p).authorities[0]);
  }

  lemma PlayInOrder(p: Script, clock: u64, first: bool)
    requires Playable(p)
    ensures InOrder(Play(p), Reads(p, clock, first), 6)
  {
    var r, q := Play(p), Reads(p, clock, first);
    assert EndsSlot(r, q.authorities) && EndsSlot(r, q.sessions) && EndsSlot(r, q.deferreds) && EndsSlot(r, 6);
    assert ReadInOrder(r, q, 6, 6);
  }

  lemma PlayObserved(p: Script, clock: u64, first: bool)
    requires Playable(p)
    ensures Observed(TRUST, Play(p), Reads(p, clock, first), Shown(p))
  {
    var r, q := Play(p), Reads(p, clock, first);
    assert r.states[q.authorities].data == Data2(p.e, None) && r.states[q.sessions].data == Data2(p.e, None);
    assert r.states[q.deferreds].data == Data2(p.e, None) && r.states[6].data == Data2(p.e, None);
    ShownIsThere(p);
  }

  lemma PlayIsReading(p: Script, clock: u64, first: bool)
    requires Playable(p) && p.e < clock
    ensures Reading(TRUST, Play(p), Reads(p, clock, first), Shown(p), 6, p.v)
  {
    PlayStarts(p);
    PlayIsRun(p);
    PlayInOrder(p, clock, first);
    PlayObserved(p, clock, first);
    ShownAlone(p, clock);
    forall n | LastAtA(p) <= n < |Play(p).instrs|
      ensures HonestAt(TRUST, Play(p), n)
    {
      PlayHonest(p, n);
    }
  }

  /** While the session is live the wallet is not controlled alone. */
  lemma PlayUnsafe(p: Script)
    requires p.v <= p.e
    ensures !Safe(TRUST, Play(p).states[6])
  {
    Distinct();
    assert OtherSession(TRUST, p.v, At(Data2(p.e, None), SES));
  }

  /** Scans at `s` and `d`, the last reads at `v`. */
  function ScriptFor(e: u64, s0: u64, rent: nat -> nat, a: u64, s: u64, d: u64, v: u64): Script {
    Script(e, s0, rent, a, if s <= d then s else d, if s <= d then d else s, v)
  }

  lemma ReadsAt(p: Script, clock: u64, a: u64, s: u64, d: u64, v: u64)
    requires p == ScriptFor(p.e, p.s0, p.rent, a, s, d, v) && a <= s <= v && a <= d <= v
    ensures At4(Play(p), Reads(p, clock, s <= d), clock, a, s, d)
  {
  }

  lemma Refutes(T: Trust, r: Run, q: Times, x: Rows, last: nat, n: nat, clock: u64, a: u64, s: u64, d: u64, v: u64)
    requires Reading(T, r, q, x, last, v) && At4(r, q, clock, a, s, d)
    requires last <= n < |r.states| && !Safe(T, r.states[n])
    ensures !Sound(clock, a, s, d, v)
  {
  }

  /** A clock that is not one of the right ones is wrong: there is a run that shows it. */
  lemma WrongClockFails(clock: u64, a: u64, s: u64, d: u64, v: u64)
    requires a <= s <= v && a <= d <= v && !ClockOk(clock, a, v)
    ensures !Sound(clock, a, s, d, v)
  {
    var e: u64 := if v > 1 then v else 1;
    var s0: u64 := if a < e then a else e - 1;
    var rent := (n: nat) => 0;
    var p := ScriptFor(e, s0, rent, a, s, d, v);
    PlayIsReading(p, clock, s <= d);
    PlayUnsafe(p);
    ReadsAt(p, clock, a, s, d, v);
    Refutes(TRUST, Play(p), Reads(p, clock, s <= d), Shown(p), 6, 6, clock, a, s, d, v);
  }

  /**
   The verdict is right in every honest run if and only if the clock is no newer than the last
   reads, up to the two cases in which no session could lie between them.
   */
  lemma ClockIsRightIff(clock: u64, a: u64, s: u64, d: u64, v: u64)
    requires a <= s <= v && a <= d <= v
    ensures Sound(clock, a, s, d, v) <==> ClockOk(clock, a, v)
  {
    if ClockOk(clock, a, v) {
      forall T: Trust, r: Run, q: Times, x: Rows, last: nat, n: nat
        | Reading(T, r, q, x, last, v) && At4(r, q, clock, a, s, d) && last <= n < |r.states|
        ensures Safe(T, r.states[n])
      {
        OrderedReadsAreSafe(T, r, q, x, last, v, n);
      }
    } else {
      WrongClockFails(clock, a, s, d, v);
    }
  }

  // ---------------------------------------------------------------------------
  // What the outsider does with it
  // ---------------------------------------------------------------------------

  function OutsiderTx(rent: nat -> nat): Tx {
    Tx(User(B), {User(B)}, true, {}, rent)
  }

  /** The chain once the session approved itself on the vault's token account. */
  function Grabbed(p: Script, slot: u64): State {
    LiveAt(p, slot).(data := Data2(p.e, Some(User(B))))
  }

  function Grab(p: Script, slot: u64): Instr {
    Execute(W, SES, [], NO_SPEND, Grabbed(p, slot))
  }

  lemma GrabRules(e: u64, signers: set<Address>)
    requires VaultKey(W) in signers
    ensures TokenRules(Data2(e, None), Data2(e, Some(User(B))), signers)
  {
    Distinct();
  }

  lemma GrabKeeps(e: u64, k: Address)
    ensures Derived(k) ==> At(Data2(e, Some(User(B))), k) == At(Data2(e, None), k)
    ensures !Derived(k) ==> External(At(Data2(e, Some(User(B))), k))
    ensures k.VaultKey? ==> At(Data2(e, Some(User(B))), k).Empty?
  {
    Distinct();
  }

  lemma GrabEffects(p: Script, slot: u64)
    ensures Effects(LiveAt(p, slot), Grabbed(p, slot), InnerSigners(OutsiderTx(p.rent), W))
  {
    GrabRules(p.e, InnerSigners(OutsiderTx(p.rent), W));
    forall k
      ensures Derived(k) ==> At(Data2(p.e, Some(User(B))), k) == At(Data2(p.e, None), k)
      ensures !Derived(k) ==> External(At(Data2(p.e, Some(User(B))), k))
      ensures k.VaultKey? ==> At(Data2(p.e, Some(User(B))), k).Empty?
    {
      GrabKeeps(p.e, k);
    }
  }

  lemma GrabAllowed(p: Script, slot: u64)
    requires slot <= p.e
    ensures CanExecute(LiveAt(p, slot), OutsiderTx(p.rent), W, SES)
    ensures Opened(LiveAt(p, slot), Grab(p, slot)) == Data2(p.e, None)
    ensures Made(Data2(p.e, Some(User(B))), Some(Settle(SES, [], NO_SPEND))) == Data2(p.e, Some(User(B)))
  {
    Distinct();
    SessionArgs.NoActionsAcceptable();
  }

  lemma GrabStep(p: Script, slot: u64)
    requires slot <= p.e
    ensures Step(LiveAt(p, slot), OutsiderTx(p.rent), Grab(p, slot), Grabbed(p, slot))
  {
    GrabEffects(p, slot);
    GrabAllowed(p, slot);
    SessionArgs.NoActionsAcceptable();
    assert LiveAt(p, slot).(data := Data2(p.e, None)) == LiveAt(p, slot);
  }

  lemma GrabHonest(p: Script, slot: u64)
    ensures Honest(TRUST, LiveAt(p, slot), OutsiderTx(p.rent), Grab(p, slot), Grabbed(p, slot))
  {
    Distinct();
  }

  /** One more step of a run. */
  datatype Move = Move(tx: Tx, instr: Instr, after: State)

  lemma GrabIsBad(p: Script, late: u64)
    ensures Bad(TRUST, Grabbed(p, late).data, TOK)
  {
    Distinct();
  }

  lemma SuchScript(e: u64, s0: u64, a: u64, s: u64, d: u64, v: u64) returns (p: Script)
    requires s0 < e <= s0 + MAX_SESSION_SLOTS && s0 <= a <= s <= v && a <= d <= v
    ensures Playable(p) && p.e == e && p.v == v && p == ScriptFor(p.e, p.s0, p.rent, a, s, d, v)
  {
    var rent := (n: nat) => 0;
    p := ScriptFor(e, s0, rent, a, s, d, v);
  }

  // ---------------------------------------------------------------------------
  // Exactly when it costs tokens
  // ---------------------------------------------------------------------------

  function Append(r: Run, m: Move): Run {
    Run(r.states + [m.after], r.txs + [m.tx], r.instrs + [m.instr])
  }

  /** The move is a step of the machine in which trusted actors grant nothing. */
  ghost predicate Follows(T: Trust, r: Run, m: Move) {
    && |r.states| > 0
    && var s := r.states[|r.states| - 1];
       Step(s, m.tx, m.instr, m.after) && Honest(T, s, m.tx, m.instr, m.after)
  }

  lemma SamePrefix(r: Run, m: Move, n: nat)
    requires Lengths(r) && n < |r.instrs|
    ensures Lengths(Append(r, m)) && StepAt(Append(r, m), n) == StepAt(r, n)
    ensures forall T :: HonestAt(T, Append(r, m), n) == HonestAt(T, r, n)
  {
  }

  lemma RunAppends(T: Trust, r: Run, m: Move, a: nat)
    requires IsRun(r) && Follows(T, r, m) && HonestFrom(T, r, a)
    ensures IsRun(Append(r, m)) && HonestFrom(T, Append(r, m), a)
  {
    var l := Append(r, m);
    forall n | 0 <= n < |l.instrs|
      ensures StepAt(l, n) && (a <= n ==> HonestAt(T, l, n))
    {
      if n < |r.instrs| {
        SamePrefix(r, m, n);
        assert StepAt(r, n) && (a <= n ==> HonestAt(T, r, n));
      }
    }
  }

  /** The read was not of the last state, or the slot turns after it. */
  predicate Settles(r: Run, m: Move, n: nat)
    requires |r.states| > 0
  {
    n < |r.states| - 1 || r.states[|r.states| - 1].slot < m.after.slot
  }

  lemma ReadAppends(r: Run, m: Move, q: Times, n: nat, last: nat)
    requires |r.states| > 0 && EndsSlot(r, n) && Settles(r, m, n)
    ensures EndsSlot(Append(r, m), n) && Append(r, m).states[n] == r.states[n]
  {
  }

  lemma OrderAppends(r: Run, m: Move, q: Times, last: nat)
    requires |r.states| > 0 && InOrder(r, q, last)
    requires Settles(r, m, q.authorities) && Settles(r, m, q.sessions) && Settles(r, m, q.deferreds)
    requires forall k :: Settles(r, m, q.account(k)) && Settles(r, m, q.token(k))
    ensures InOrder(Append(r, m), q, last)
  {
    ReadAppends(r, m, q, q.authorities, last);
    ReadAppends(r, m, q, q.sessions, last);
    ReadAppends(r, m, q, q.deferreds, last);
    forall k
      ensures ReadInOrder(Append(r, m), q, q.account(k), last) && ReadInOrder(Append(r, m), q, q.token(k), last)
    {
      assert ReadInOrder(r, q, q.account(k), last) && ReadInOrder(r, q, q.token(k), last);
      ReadAppends(r, m, q, q.account(k), last);
      ReadAppends(r, m, q, q.token(k), last);
    }
  }

  lemma RowsAppend(T: Trust, r: Run, m: Move, q: Times, x: Rows)
    requires q.authorities < |r.states| && q.sessions < |r.states| && q.deferreds < |r.states|
    requires (forall k :: q.account(k) < |r.states| && q.token(k) < |r.states|) && Observed(T, r, q, x)
    ensures Observed(T, Append(r, m), q, x)
    ensures forall k :: Append(r, m).states[q.account(k)] == r.states[q.account(k)]
    ensures forall k :: Append(r, m).states[q.token(k)] == r.states[q.token(k)]
  {
    var l := Append(r, m);
    assert forall n :: 0 <= n < |r.states| ==> l.states[n] == r.states[n];
  }

  /** Reads stay what they were when the run goes on. */
  lemma ReadingAppends(T: Trust, r: Run, m: Move, q: Times, x: Rows, last: nat, v: nat)
    requires Reading(T, r, q, x, last, v) && Follows(T, r, m)
    requires Settles(r, m, q.authorities) && Settles(r, m, q.sessions) && Settles(r, m, q.deferreds)
    requires forall k :: Settles(r, m, q.account(k)) && Settles(r, m, q.token(k))
    ensures Reading(T, Append(r, m), q, x, last, v)
  {
    RunAppends(T, r, m, q.authorities);
    OrderAppends(r, m, q, last);
    RowsAppend(T, r, m, q, x);
    assert Append(r, m).states[0] == r.states[0];
  }

  function WaitMove(p: Script, slot: u64): Move {
    Move(OwnerTx(p.rent), Wait(p, slot), LiveAt(p, slot))
  }

  function GrabMove(p: Script, slot: u64): Move {
    Move(OutsiderTx(p.rent), Grab(p, slot), Grabbed(p, slot))
  }

  /** One slot later; and once the session has approved itself. */
  function PlayOn(p: Script): Run {
    Append(Play(p), WaitMove(p, p.e))
  }

  function PlayOut(p: Script): Run {
    Append(PlayOn(p), GrabMove(p, p.e))
  }

  lemma PlayOnReads(p: Script, clock: u64, first: bool)
    requires Playable(p) && p.e as int == p.v + 1 && p.e < clock
    ensures Reading(TRUST, PlayOn(p), Reads(p, clock, first), Shown(p), 6, p.v)
  {
    PlayIsReading(p, clock, first);
    PlayedAt(p, 5);
    WaitStep(p.e, p.s0, p.rent, p.v, p.e);
    WaitHonest(p.e, p.s0, p.rent, p.v, p.e);
    ReadingAppends(TRUST, Play(p), WaitMove(p, p.e), Reads(p, clock, first), Shown(p), 6, p.v);
  }

  lemma GrabFollows(p: Script)
    requires Playable(p) && p.e as int == p.v + 1
    ensures Follows(TRUST, PlayOn(p), GrabMove(p, p.e))
  {
    GrabStep(p, p.e);
    GrabHonest(p, p.e);
    assert PlayOn(p).states[7] == LiveAt(p, p.e);
  }

  /** The reads are all before the run goes on. */
  lemma GrabSettles(p: Script, clock: u64, first: bool)
    ensures var r, m, q := PlayOn(p), GrabMove(p, p.e), Reads(p, clock, first);
            && Settles(r, m, q.authorities) && Settles(r, m, q.sessions) && Settles(r, m, q.deferreds)
            && forall k :: Settles(r, m, q.account(k)) && Settles(r, m, q.token(k))
  {
  }

  lemma PlayOutReads(p: Script, clock: u64, first: bool)
    requires Playable(p) && p.e as int == p.v + 1 && p.e < clock
    ensures Reading(TRUST, PlayOut(p), Reads(p, clock, first), Shown(p), 6, p.v)
  {
    PlayOnReads(p, clock, first);
    GrabFollows(p);
    GrabSettles(p, clock, first);
    ReadingAppends(TRUST, PlayOn(p), GrabMove(p, p.e), Reads(p, clock, first), Shown(p), 6, p.v);
  }

  /** In some honest run the reads say controlled alone and later an account of the vault is exposed or lost. */
  ghost predicate CanGoBad(clock: u64, a: u64, s: u64, d: u64, v: u64) {
    exists T: Trust, r: Run, q: Times, x: Rows, last: nat, n: nat, k: Address ::
      && Reading(T, r, q, x, last, v) && At4(r, q, clock, a, s, d) && last <= n < |r.states|
      && Bad(T, r.states[n].data, k)
  }

  lemma ReadsAtOut(p: Script, clock: u64, a: u64, s: u64, d: u64, v: u64)
    requires p == ScriptFor(p.e, p.s0, p.rent, a, s, d, v) && a <= s <= v && a <= d <= v
    ensures At4(PlayOut(p), Reads(p, clock, s <= d), clock, a, s, d)
  {
    ReadsAt(p, clock, a, s, d, v);
    assert forall n :: 0 <= n < 7 ==> PlayOut(p).states[n] == Play(p).states[n];
  }

  lemma GoesBad(
      T: Trust, r: Run, q: Times, x: Rows, last: nat, n: nat, k: Address, clock: u64, a: u64, s: u64, d: u64, v: u64)
    requires Reading(T, r, q, x, last, v) && At4(r, q, clock, a, s, d) && last <= n < |r.states|
    requires Bad(T, r.states[n].data, k)
    ensures CanGoBad(clock, a, s, d, v)
  {
  }

  /** A session that lasts to the slot after the last reads, and no further, takes its chance there. */
  lemma StaleClockLosesTokens(clock: u64, a: u64, s: u64, d: u64, v: u64)
    requires a <= s <= v && a <= d <= v && clock > v + 1 && v + 1 <= a + MAX_SESSION_SLOTS
    ensures CanGoBad(clock, a, s, d, v)
  {
    var p := SuchScript(v + 1, a, a, s, d, v);
    PlayOutReads(p, clock, s <= d);
    ReadsAtOut(p, clock, a, s, d, v);
    GrabIsBad(p, p.e);
    assert PlayOut(p).states[8] == Grabbed(p, p.e);
    GoesBad(TRUST, PlayOut(p), Reads(p, clock, s <= d), Shown(p), 6, 8, TOK, clock, a, s, d, v);
  }

  /**
   An account of the vault can go bad after the reads called the wallet controlled alone if and
   only if the clock is more than a slot ahead of the last reads and a session can reach past
   them: at one slot ahead, all that was passed over ends with the slot the reads were made in.
   */
  lemma LosesTokensIff(clock: u64, a: u64, s: u64, d: u64, v: u64)
    requires a <= s <= v && a <= d <= v
    ensures CanGoBad(clock, a, s, d, v) <==> clock > v + 1 && v + 1 <= a + MAX_SESSION_SLOTS
  {
    if clock > v + 1 && v + 1 <= a + MAX_SESSION_SLOTS {
      StaleClockLosesTokens(clock, a, s, d, v);
    } else {
      forall T: Trust, r: Run, q: Times, x: Rows, last: nat, n: nat, k: Address
        | Reading(T, r, q, x, last, v) && At4(r, q, clock, a, s, d) && last <= n < |r.states|
        ensures !Bad(T, r.states[n].data, k)
      {
        var bound := OverBy(T, r, q, x, last, v, v + 1);
        NeverBad(T, r, q, x, last, v, bound, n, k);
      }
    }
  }

  /** For one: the clock says slot 100, and every read is answered from slot 95. */
  lemma StaleByFiveSlots()
    ensures CanGoBad(100, 95, 95, 95, 95)
  {
    StaleClockLosesTokens(100, 95, 95, 95, 95);
  }
}
