/**
 The SDK's ordered reads (`sdk/sdk-kit/src/client.ts`, `readSpendingState` and
 `describeCandidate`): authorities, then sessions and deferred authorizations, then the vault
 and its token accounts, each at or after the slot of the read before. However transactions
 interleave with the reads, a wallet they describe as controlled alone is.
 */
module OrderedReads {
  import opened Bytes
  import opened Chain
  import opened Registry
  import opened WalletProgram
  import opened Escalation
  import opened TrustedSpending

  // ---------------------------------------------------------------------------
  // The reads
  // ---------------------------------------------------------------------------

  /** An account and what it held when it was read. */
  datatype Row = Row(at: Address, content: Content)

  /** What `readSpendingState` returns for the wallet. */
  datatype Rows = Rows(authorities: seq<Row>, sessions: seq<Row>, deferreds: seq<Row>, vault: Content,
      owned: seq<Row>, atas: seq<Row>)

  /**
   When each part was read, as positions in the run. `account` says when each account of the
   last step was read by address, and `token` when the scan of the vault's token accounts looked
   at it: a watched account is read both ways, and no two of these reads need be made together.
   */
  datatype Times = Times(
    clock: u64, authorities: nat, sessions: nat, deferreds: nat, account: Address -> nat, token: Address -> nat)

  /** A read answers with the state at the end of a slot. */
  predicate EndsSlot(r: Run, n: nat) {
    n < |r.states| && (n + 1 < |r.states| ==> r.states[n].slot < r.states[n + 1].slot)
  }

  /** Each step asks for state no older than the slot the step before was answered at. */
  ghost predicate InOrder(r: Run, q: Times, last: nat) {
    && EndsSlot(r, q.authorities) && EndsSlot(r, q.sessions) && EndsSlot(r, q.deferreds) && last < |r.states|
    && r.states[q.authorities].slot <= r.states[q.sessions].slot
    && r.states[q.authorities].slot <= r.states[q.deferreds].slot
    && (forall k :: ReadInOrder(r, q, q.account(k), last))
    && (forall k :: ReadInOrder(r, q, q.token(k), last))
  }

  /** A read of the last step, made at position `n`. */
  predicate ReadInOrder(r: Run, q: Times, n: nat, last: nat)
    requires q.sessions < |r.states| && q.deferreds < |r.states|
  {
    && EndsSlot(r, n) && n <= last
    && r.states[q.sessions].slot <= r.states[n].slot && r.states[q.deferreds].slot <= r.states[n].slot
  }

  /** The rows are what was there at those times. */
  ghost predicate Observed(T: Trust, r: Run, q: Times, x: Rows)
    requires q.authorities < |r.states| && q.sessions < |r.states| && q.deferreds < |r.states|
    requires forall k :: q.account(k) < |r.states| && q.token(k) < |r.states|
  {
    && (forall k :: var c := At(r.states[q.authorities].data, k); c.Authority? && c.wallet == T.wallet ==>
          Row(k, c) in x.authorities)
    && (forall row :: row in x.authorities ==>
          row.content.Authority? && row.content == At(r.states[q.authorities].data, row.at) &&
              row.content.wallet == T.wallet)
    && (forall k :: var c := At(r.states[q.sessions].data, k); c.Session? && c.wallet == T.wallet ==>
          Row(k, c) in x.sessions)
    && (forall k :: var c := At(r.states[q.deferreds].data, k); c.Deferred? && c.wallet == T.wallet ==>
          Row(k, c) in x.deferreds)
    && x.vault == At(r.states[q.account(Vault(T))].data, Vault(T))
    && (forall k :: var c := At(r.states[q.token(k)].data, k); c.Token? && c.holder == Vault(T) ==>
          Row(k, c) in x.owned)
    && (forall k :: Watched(T, k) ==> Row(k, At(r.states[q.account(k)].data, k)) in x.atas)
  }

  // ---------------------------------------------------------------------------
  // The verdict
  // ---------------------------------------------------------------------------

  predicate OwnIntact(T: Trust, rows: seq<Row>) {
    exists j :: 0 <= j < |rows| && IsOwn(T, rows[j])
  }

  predicate IsOwn(T: Trust, row: Row) {
    && row.at == T.own && row.content.Authority? && row.content.kind.Secp256r1?
    && row.content.role == OWNER && row.content.kind.passkey == T.passkey
  }

  /** A passkey other than the caller's is never trusted. */
  predicate AuthorityTrusted(T: Trust, row: Row) {
    row.content.Authority? && row.content.kind.Ed25519? && row.content.kind.pubkey in T.keys
  }

  predicate SessionFine(T: Trust, clock: u64, row: Row) {
    row.content.Session? && (row.content.expiresAt < clock || row.content.key in T.keys)
  }

  /** No pending deferred authorization is trusted. */
  predicate DeferredOver(clock: u64, row: Row) {
    row.content.Deferred? && row.content.expiresAt < clock
  }

  predicate GranteeFine(T: Trust, g: Option<Address>) {
    g.None? || g.value == Vault(T) || TrustedAddress(T, g.value)
  }

  /** Any delegate and any close authority counts, on any account. */
  predicate OwnedFine(T: Trust, row: Row) {
    row.content.Token? && GranteeFine(T, row.content.delegate) && GranteeFine(T, row.content.closer)
  }

  predicate AtaFine(T: Trust, row: Row) {
    row.content.Token? ==> row.content.holder == Vault(T) || TrustedAddress(T, row.content.holder)
  }

  /** `controlledAlone`. */
  predicate Alone(T: Trust, clock: u64, x: Rows) {
    && OwnIntact(T, x.authorities) && x.vault.Empty?
    && (forall j :: 0 <= j < |x.authorities| ==> x.authorities[j].at == T.own || AuthorityTrusted(T, x.authorities[j]))
    && (forall j :: 0 <= j < |x.sessions| ==> SessionFine(T, clock, x.sessions[j]))
    && (forall j :: 0 <= j < |x.deferreds| ==> DeferredOver(clock, x.deferreds[j]))
    && (forall j :: 0 <= j < |x.owned| ==> OwnedFine(T, x.owned[j]))
    && (forall j :: 0 <= j < |x.atas| ==> AtaFine(T, x.atas[j]))
  }

  method EveryAuthority(T: Trust, rows: seq<Row>) returns (own: bool, ok: bool)
    ensures own <==> OwnIntact(T, rows)
    ensures ok <==> forall j :: 0 <= j < |rows| ==> rows[j].at == T.own || AuthorityTrusted(T, rows[j])
  {
    own, ok := false, true;
    for j := 0 to |rows|
      invariant own <==> exists m :: 0 <= m < j && IsOwn(T, rows[m])
      invariant ok <==> forall m :: 0 <= m < j ==> rows[m].at == T.own || AuthorityTrusted(T, rows[m])
    {
      if IsOwn(T, rows[j]) {
        own := true;
      }
      if rows[j].at != T.own {
        ok := ok && AuthorityTrusted(T, rows[j]);
      }
    }
  }

  method EverySession(T: Trust, clock: u64, rows: seq<Row>) returns (ok: bool)
    ensures ok <==> forall j :: 0 <= j < |rows| ==> SessionFine(T, clock, rows[j])
  {
    ok := true;
    for j := 0 to |rows|
      invariant ok <==> forall m :: 0 <= m < j ==> SessionFine(T, clock, rows[m])
    {
      var c := rows[j].content;
      if c.Session? && c.expiresAt < clock {
        continue;
      }
      ok := ok && c.Session? && c.key in T.keys;
    }
  }

  method EveryDeferred(clock: u64, rows: seq<Row>) returns (ok: bool)
    ensures ok <==> forall j :: 0 <= j < |rows| ==> DeferredOver(clock, rows[j])
  {
    ok := true;
    for j := 0 to |rows|
      invariant ok <==> forall m :: 0 <= m < j ==> DeferredOver(clock, rows[m])
    {
      var c := rows[j].content;
      if c.Deferred? && c.expiresAt < clock {
        continue;
      }
      ok := false;
    }
  }

  method EveryGrant(T: Trust, owned: seq<Row>, atas: seq<Row>) returns (ok: bool)
    ensures ok <==> && (forall j :: 0 <= j < |owned| ==> OwnedFine(T, owned[j]))
                    && (forall j :: 0 <= j < |atas| ==> AtaFine(T, atas[j]))
  {
    ok := true;
    for j := 0 to |owned|
      invariant ok <==> forall m :: 0 <= m < j ==> OwnedFine(T, owned[m])
    {
      ok := ok && OwnedFine(T, owned[j]);
    }
    for j := 0 to |atas|
      invariant ok <==> && (forall m :: 0 <= m < |owned| ==> OwnedFine(T, owned[m]))
                        && (forall m :: 0 <= m < j ==> AtaFine(T, atas[m]))
    {
      var c := atas[j].content;
      if !c.Token? || c.holder == Vault(T) {
        continue;
      }
      ok := ok && TrustedAddress(T, c.holder);
    }
  }

  /** `describeCandidate`, as far as `controlledAlone` goes. */
  method DescribeCandidate(T: Trust, clock: u64, x: Rows) returns (alone: bool)
    ensures alone <==> Alone(T, clock, x)
  {
    var own, authorities := EveryAuthority(T, x.authorities);
    var sessions := EverySession(T, clock, x.sessions);
    var deferreds := EveryDeferred(clock, x.deferreds);
    var grants := EveryGrant(T, x.owned, x.atas);
    alone := own && x.vault.Empty? && authorities && sessions && deferreds && grants;
  }

  // ---------------------------------------------------------------------------
  // What the verdict says, in terms of who can spend
  // ---------------------------------------------------------------------------

  /** Rows as the scans return them: each of its kind, on this wallet, one per address. */
  ghost predicate Scanned(T: Trust, x: Rows) {
    && (forall row :: row in x.authorities ==> row.content.Authority? && row.content.wallet == T.wallet)
    && (forall row, other :: row in x.authorities && other in x.authorities && row.at == other.at ==> row == other)
    && (forall row :: row in x.sessions ==> row.content.Session? && row.content.wallet == T.wallet)
    && (forall row :: row in x.deferreds ==> row.content.Deferred?)
    && (forall row :: row in x.owned ==> row.content.Token?)
  }

  /** The caller's passkey is an Owner of the wallet, under its own address. */
  ghost predicate StillOwner(T: Trust, x: Rows) {
    exists credential: Key, rpIdHash: Key, counter: nat, policy: seq<byte> ::
      Row(T.own, Authority(T.wallet, Secp256r1(credential, T.passkey, rpIdHash), OWNER, counter, policy))
        in x.authorities
  }

  /** No outsider: no authority, no session or deferred authorization still live, no right on a token account. */
  ghost predicate NoOutsider(T: Trust, clock: u64, x: Rows)
    requires Scanned(T, x)
  {
    && (forall row :: row in x.authorities ==> !OtherAuthority(T, row.at, row.content))
    && (forall row :: row in x.sessions ==> !OtherSession(T, clock, row.content))
    && (forall row :: row in x.deferreds ==> row.content.expiresAt < clock)
    && (forall row :: row in x.owned ==>
          !OtherGrantee(T, row.content.delegate) && !OtherGrantee(T, row.content.closer))
    && (forall row :: row in x.atas && row.content.Token? ==> !OtherGrantee(T, Some(row.content.holder)))
  }

  lemma OwnerIsIntact(T: Trust, x: Rows)
    requires Scanned(T, x)
    ensures OwnIntact(T, x.authorities) <==> StillOwner(T, x)
  {
    var rows := x.authorities;
    if OwnIntact(T, rows) {
      var j :| 0 <= j < |rows| && IsOwn(T, rows[j]);
      var c := rows[j].content;
      assert rows[j] in rows;
      assert rows[j] == Row(T.own, Authority(T.wallet, Secp256r1(c.kind.credential, T.passkey, c.kind.rpIdHash), OWNER,
                                             c.counter, c.policy));
    }
    if StillOwner(T, x) {
      var credential: Key, rpIdHash: Key, counter: nat, policy: seq<byte> :|
        Row(T.own, Authority(T.wallet, Secp256r1(credential, T.passkey, rpIdHash), OWNER, counter, policy)) in rows;
      var j :| 0 <= j < |rows| && rows[j].at == T.own &&
        rows[j].content == Authority(T.wallet, Secp256r1(credential, T.passkey, rpIdHash), OWNER, counter, policy);
      assert IsOwn(T, rows[j]);
    }
  }

  lemma AuthorityRow(T: Trust, x: Rows, row: Row)
    requires Scanned(T, x) && OwnIntact(T, x.authorities) && row in x.authorities
    ensures row.at == T.own || AuthorityTrusted(T, row) <==> !OtherAuthority(T, row.at, row.content)
  {
    var j :| 0 <= j < |x.authorities| && IsOwn(T, x.authorities[j]);
    assert x.authorities[j] in x.authorities;
  }

  /**
   The verdict is true if and only if the caller's passkey is still an Owner, the vault is a plain
   account and there is no outsider: neither a spender it misses nor one it makes up.
   */
  lemma AloneExactly(T: Trust, clock: u64, x: Rows)
    requires Scanned(T, x)
    ensures Alone(T, clock, x) <==> StillOwner(T, x) && x.vault.Empty? && NoOutsider(T, clock, x)
  {
    OwnerIsIntact(T, x);
    if OwnIntact(T, x.authorities) {
      forall row | row in x.authorities
        ensures row.at == T.own || AuthorityTrusted(T, row) <==> !OtherAuthority(T, row.at, row.content)
      {
        AuthorityRow(T, x, row);
      }
    }
  }

  /** Who is an outsider, case by case. */
  lemma OutsidersExactly(T: Trust, k: Address, key: Key, pk: seq<byte>, id: Key, role: byte, n: nat, slot: nat, e: u64,
                         policy: seq<byte>, a: Address)
    ensures OtherAuthority(T, k, Authority(T.wallet, Ed25519(key), role, n, policy)) <==> key !in T.keys
    ensures OtherAuthority(T, k, Authority(T.wallet, Secp256r1(id, pk, key), role, n, policy)) <==>
            k != T.own || pk != T.passkey
    ensures OtherSession(T, slot, Session(T.wallet, key, e, policy)) <==> slot <= e && key !in T.keys
    ensures !OtherGrantee(T, None) && !OtherGrantee(T, Some(VaultKey(T.wallet)))
    ensures a != VaultKey(T.wallet) ==>
              (OtherGrantee(T, Some(a)) <==> forall key: Key :: key in T.keys ==> a != User(key))
  {
  }

  // ---------------------------------------------------------------------------
  // What the verdict means
  // ---------------------------------------------------------------------------

  /** A read at a slot no older saw a state no earlier. */
  lemma LaterSlotLaterState(r: Run, m: nat, n: nat)
    requires IsRun(r) && m < |r.states| && EndsSlot(r, n) && r.states[m].slot <= r.states[n].slot
    ensures m <= n
  {
    if n < m {
      SlotsMonotone(r, n + 1, m);
    }
  }

  lemma InRows(row: Row, rows: seq<Row>) returns (j: nat)
    requires row in rows
    ensures j < |rows| && rows[j] == row
  {
    j :| 0 <= j < |rows| && rows[j] == row;
  }

  lemma ReadAuthorities(T: Trust, d: Records, rows: seq<Row>)
    requires forall k :: var c := At(d, k); c.Authority? && c.wallet == T.wallet ==> Row(k, c) in rows
    requires forall row :: row in rows ==>
              row.content.Authority? && row.content == At(d, row.at) && row.content.wallet == T.wallet
    requires OwnIntact(T, rows)
    requires forall j :: 0 <= j < |rows| ==> rows[j].at == T.own || AuthorityTrusted(T, rows[j])
    ensures AuthoritiesClean(T, d) && At(d, T.own).Authority? && At(d, T.own).wallet == T.wallet
  {
    var o :| 0 <= o < |rows| && IsOwn(T, rows[o]);
    assert rows[o] in rows;
    forall k
      ensures !OtherAuthority(T, k, At(d, k))
    {
      var c := At(d, k);
      if c.Authority? && c.wallet == T.wallet {
        var j := InRows(Row(k, c), rows);
      }
    }
  }

  lemma ReadSessions(T: Trust, clock: u64, d: Records, rows: seq<Row>)
    requires forall k :: var c := At(d, k); c.Session? && c.wallet == T.wallet ==> Row(k, c) in rows
    requires forall j :: 0 <= j < |rows| ==> SessionFine(T, clock, rows[j])
    ensures forall k :: !OtherSession(T, clock, At(d, k))
  {
    forall k
      ensures !OtherSession(T, clock, At(d, k))
    {
      var c := At(d, k);
      if c.Session? && c.wallet == T.wallet {
        var j := InRows(Row(k, c), rows);
      }
    }
  }

  lemma ReadDeferreds(T: Trust, clock: u64, d: Records, rows: seq<Row>)
    requires forall k :: var c := At(d, k); c.Deferred? && c.wallet == T.wallet ==> Row(k, c) in rows
    requires forall j :: 0 <= j < |rows| ==> DeferredOver(clock, rows[j])
    ensures forall k :: !OtherDeferred(T, clock, At(d, k))
  {
    forall k
      ensures !OtherDeferred(T, clock, At(d, k))
    {
      var c := At(d, k);
      if c.Deferred? && c.wallet == T.wallet {
        var j := InRows(Row(k, c), rows);
      }
    }
  }

  /** No right over a token account the vault held when it was scanned is an outsider's. */
  lemma ReadOwned(T: Trust, d: Records, k: Address, owned: seq<Row>)
    requires var c := At(d, k); c.Token? && c.holder == Vault(T) ==> Row(k, c) in owned
    requires forall j :: 0 <= j < |owned| ==> OwnedFine(T, owned[j])
    ensures !Exposed(T, At(d, k))
  {
    var c := At(d, k);
    if c.Token? && c.holder == Vault(T) {
      var j := InRows(Row(k, c), owned);
    }
  }

  /** No watched account was in an outsider's hands when it was read. */
  lemma ReadAta(T: Trust, d: Records, k: Address, atas: seq<Row>)
    requires Watched(T, k) ==> Row(k, At(d, k)) in atas
    requires forall j :: 0 <= j < |atas| ==> AtaFine(T, atas[j])
    ensures !Lost(T, d, k)
  {
    if Watched(T, k) {
      var j := InRows(Row(k, At(d, k)), atas);
    }
  }

  /**
   The reads, and the verdict on them, in an honest run. `v` is a slot every read of the last
   step was made at or after; the scans' slots are one.
   */
  ghost predicate Reading(T: Trust, r: Run, q: Times, x: Rows, last: nat, v: nat) {
    && IsRun(r) && Initial(r.states[0]) && InOrder(r, q, last) && HonestFrom(T, r, q.authorities)
    && (forall k :: q.account(k) < |r.states| && q.token(k) < |r.states|)
    && (forall k :: v <= r.states[q.account(k)].slot && v <= r.states[q.token(k)].slot)
    && Observed(T, r, q, x) && Alone(T, q.clock, x)
  }

  /**
   The clock expiries are compared with is no newer than the last reads, or it is slot 1, which
   nothing ends before; or those reads came so long after the authorities that every session
   made by then had lapsed.
   */
  predicate ClockOk(clock: nat, authoritiesSlot: nat, v: nat) {
    clock <= v || clock <= 1 || v > authoritiesSlot + MAX_SESSION_SLOTS
  }

  lemma VerdictReads(T: Trust, r: Run, q: Times, x: Rows, last: nat, v: nat)
    requires Reading(T, r, q, x, last, v)
    ensures ReadClean(T, r, q.authorities, q.sessions, q.deferreds, q.clock)
  {
    ReadAuthorities(T, r.states[q.authorities].data, x.authorities);
    ReadSessions(T, q.clock, r.states[q.sessions].data, x.sessions);
    ReadDeferreds(T, q.clock, r.states[q.deferreds].data, x.deferreds);
    LaterSlotLaterState(r, q.authorities, q.sessions);
    LaterSlotLaterState(r, q.authorities, q.deferreds);
    InvReached(r, q.authorities);
    assert Shaped(r.states[q.authorities].data, T.own);
  }

  /** A read of the last step came after both scans. */
  lemma LastReadIsLate(r: Run, q: Times, n: nat, last: nat)
    requires IsRun(r) && q.sessions < |r.states| && q.deferreds < |r.states| && ReadInOrder(r, q, n, last)
    ensures q.sessions <= n && q.deferreds <= n <= last
  {
    LaterSlotLaterState(r, q.sessions, n);
    LaterSlotLaterState(r, q.deferreds, n);
  }

  /** What the last step saw of an account, each half at its own time. */
  lemma VerdictOnAccount(T: Trust, r: Run, q: Times, x: Rows, last: nat, v: nat, k: Address)
    requires Reading(T, r, q, x, last, v)
    ensures EndsSlot(r, q.token(k)) && EndsSlot(r, q.account(k)) && q.token(k) <= last && q.account(k) <= last
    ensures q.sessions <= q.token(k) && q.deferreds <= q.token(k)
    ensures q.sessions <= q.account(k) && q.deferreds <= q.account(k)
    ensures !Exposed(T, At(r.states[q.token(k)].data, k)) && !Lost(T, r.states[q.account(k)].data, k)
  {
    assert ReadInOrder(r, q, q.token(k), last) && ReadInOrder(r, q, q.account(k), last);
    LastReadIsLate(r, q, q.token(k), last);
    LastReadIsLate(r, q, q.account(k), last);
    ReadOwned(T, r.states[q.token(k)].data, k, x.owned);
    ReadAta(T, r.states[q.account(k)].data, k, x.atas);
  }

  /**
   The slot by which everything the reads passed over is over: the clock's, or an earlier or later
   one it cannot outlast.
   */
  lemma OverBy(T: Trust, r: Run, q: Times, x: Rows, last: nat, v: nat, w: nat) returns (bound: nat)
    requires Reading(T, r, q, x, last, v)
    requires q.clock <= w || q.clock <= 1 || w > r.states[q.authorities].slot + MAX_SESSION_SLOTS
    ensures bound <= w && ReadClean(T, r, q.authorities, q.sessions, q.deferreds, bound)
  {
    VerdictReads(T, r, q, x, last, v);
    if q.clock <= w {
      bound := q.clock;
    } else if q.clock <= 1 {
      OverFromStart(T, r, q.sessions);
      OverFromStart(T, r, q.deferreds);
      bound := 0;
    } else {
      bound := r.states[q.authorities].slot + MAX_SESSION_SLOTS + 1;
      LapsesFrom(T, r, q.authorities, bound);
      OverFrom(T, r, q.authorities, q.authorities, q.sessions, bound);
      OverFrom(T, r, q.authorities, q.authorities, q.deferreds, bound);
    }
  }

  /** No account goes bad after the last reads, if what they passed over is over in the slot after theirs. */
  lemma NeverBad(T: Trust, r: Run, q: Times, x: Rows, last: nat, v: nat, bound: nat, n: nat, k: Address)
    requires Reading(T, r, q, x, last, v) && last <= n < |r.states|
    requires bound <= v + 1 && ReadClean(T, r, q.authorities, q.sessions, q.deferreds, bound)
    ensures !Bad(T, r.states[n].data, k)
  {
    VerdictOnAccount(T, r, q, x, last, v, k);
    GoodFromSlotEnd(T, r, q.authorities, q.sessions, q.deferreds, bound, q.token(k), n, k);
    GoodFromSlotEnd(T, r, q.authorities, q.sessions, q.deferreds, bound, q.account(k), n, k);
  }

  lemma SafeFrom(T: Trust, r: Run, q: Times, x: Rows, last: nat, v: nat, bound: nat, n: nat)
    requires Reading(T, r, q, x, last, v) && bound <= v
    requires ReadClean(T, r, q.authorities, q.sessions, q.deferreds, bound)
    requires last <= n < |r.states|
    ensures Safe(T, r.states[n])
  {
    var a, b1, b2, m := q.authorities, q.sessions, q.deferreds, q.account(Vault(T));
    VerdictOnAccount(T, r, q, x, last, v, Vault(T));
    SlotsMonotone(r, m, n);
    CleanFrom(T, r, a, b1, b2, bound, n);
    GoodFrom(T, r, a, b1, b2, bound, m, n, Vault(T));
    forall k
      ensures !Bad(T, r.states[n].data, k)
    {
      NeverBad(T, r, q, x, last, v, bound, n, k);
    }
  }

  /**
   A wallet the ordered reads call controlled alone stays so: in every later state of every run
   in which trusted actors grant nothing to outsiders, no outsider can make the vault sign or
   take from its token accounts, and every lamport and token that leaves it leaves by a trusted
   hand, whatever happened between the reads.
   */
  lemma OrderedReadsAreSafe(T: Trust, r: Run, q: Times, x: Rows, last: nat, v: nat, n: nat)
    requires Reading(T, r, q, x, last, v) && ClockOk(q.clock, r.states[q.authorities].slot, v)
    requires last <= n < |r.states|
    ensures Safe(T, r.states[n])
    ensures n < |r.instrs| && Lam(r.states[n + 1].lamports, Vault(T)) < Lam(r.states[n].lamports, Vault(T)) ==>
              TrustedExec(T, r.states[n], r.txs[n], r.instrs[n])
    ensures n < |r.instrs| ==> forall k :: Taken(T, r.states[n].data, r.states[n + 1].data, k) ==>
              || TrustedExec(T, r.states[n], r.txs[n], r.instrs[n])
              || TrustedGrantee(T, SignersOf(r.txs[n], r.instrs[n]), At(r.states[n].data, k))
  {
    var bound := OverBy(T, r, q, x, last, v, v);
    SafeFrom(T, r, q, x, last, v, bound, n);
    if n < |r.instrs| {
      InvReached(r, n);
      assert StepAt(r, n);
      SpendIsTrusted(T, r.states[n], r.txs[n], r.instrs[n], r.states[n + 1]);
    }
  }

  /** The later of the two scans, which the last reads are at or after. */
  function LaterScan(r: Run, q: Times): nat
    requires q.sessions < |r.states| && q.deferreds < |r.states|
  {
    var s, d := r.states[q.sessions].slot, r.states[q.deferreds].slot;
    if s <= d then d else s
  }

  /** What the SDK itself asks of the RPC is enough, as soon as one of the scans is no older than the clock. */
  lemma ClockOfAScanIsSafe(T: Trust, r: Run, q: Times, x: Rows, last: nat, n: nat)
    requires Reading(T, r, q, x, last, 0) && last <= n < |r.states|
    requires q.clock <= LaterScan(r, q)
    ensures Safe(T, r.states[n])
  {
    forall k
      ensures LaterScan(r, q) <= r.states[q.account(k)].slot && LaterScan(r, q) <= r.states[q.token(k)].slot
    {
      assert ReadInOrder(r, q, q.account(k), last) && ReadInOrder(r, q, q.token(k), last);
    }
    OrderedReadsAreSafe(T, r, q, x, last, LaterScan(r, q), n);
  }
}
