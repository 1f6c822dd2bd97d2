/**
 Why the order of the reads matters: with the token accounts read before the authorities, an
 outsider's grant and exit can fall in between and show in neither read.
 */
module ReadOrder {
  import opened Bytes
  import opened Chain
  import opened Registry
  import opened WalletProgram
  import opened TrustedSpending
  import opened OrderedReads
  import opened Limits
  import opened PolicyEngine

  const A: Key := [1, 1, 1, 1, 1, 1, 1, 1, 1, 1, 1, 1, 1, 1, 1, 1, 1, 1, 1, 1, 1, 1, 1, 1, 1, 1, 1, 1, 1, 1, 1, 1]
  const B: Key := [2, 2, 2, 2, 2, 2, 2, 2, 2, 2, 2, 2, 2, 2, 2, 2, 2, 2, 2, 2, 2, 2, 2, 2, 2, 2, 2, 2, 2, 2, 2, 2]
  const C: Key := [3, 3, 3, 3, 3, 3, 3, 3, 3, 3, 3, 3, 3, 3, 3, 3, 3, 3, 3, 3, 3, 3, 3, 3, 3, 3, 3, 3, 3, 3, 3, 3]
  const PASSKEY: seq<byte> := [2, 2, 2, 2, 2, 2, 2, 2, 2, 2, 2, 2, 2, 2, 2, 2, 2, 2, 2, 2, 2, 2, 2, 2, 2, 2, 2, 2, 2,
      2, 2, 2, 2]

  const W: Address := WalletKey(A)
  const OWN: Address := AuthorityKey(W, A)
  const OUT: Address := AuthorityKey(W, B)
  const TOK: Address := User(C)

  const OwnRecord: Content := Authority(W, Secp256r1(A, PASSKEY, A), OWNER, 0, [])
  const OutRecord: Content := Authority(W, Ed25519(B), OWNER, 0, [])

  function TokenWith(delegate: Option<Address>): Content {
    Token(A, VaultKey(W), 5, delegate, None, false)
  }

  const D0: Records := map[W := Wallet(2), OWN := OwnRecord, OUT := OutRecord, TOK := TokenWith(None)]
  const D1: Records := map[W := Wallet(2), OWN := OwnRecord, OUT := OutRecord, TOK := TokenWith(Some(User(B)))]
  const D2: Records :=
    map[W := Wallet(1), OWN := OwnRecord.(counter := 1), OUT := Zeroed, TOK := TokenWith(Some(User(B)))]

  const S0: State := State(map[], D0, 7)
  const S1: State := State(map[], D1, 7)

  function Tx0(rent: nat -> nat): Tx {
    Tx(User(B), {User(B)}, true, {}, rent)
  }

  function Tx1(rent: nat -> nat): Tx {
    Tx(User(C), {User(C)}, true, {Assertion(PASSKEY, User(C), W, 1, ToRemove(OUT, User(C)))}, rent)
  }

  const NO_SPEND: Spend := Spend(0, 0, [], 7)
  const GRANT: Instr := Execute(W, OUT, [], NO_SPEND, S1)
  const EXIT: Instr := RemoveAuthority(W, OWN, OUT, User(C))

  const TRUST: Trust := Trust(W, OWN, PASSKEY, {}, {}, {})

  lemma Distinct()
    ensures A != B && A != C && B != C
  {
    assert A[0] == 1 && B[0] == 2 && C[0] == 3;
  }

  lemma GrantEffects(rent: nat -> nat)
    ensures Effects(S0, S1, InnerSigners(Tx0(rent), W))
  {
    Distinct();
  }

  /** The outsider, still an Owner, approves itself on the vault's token account. */
  lemma GrantStep(rent: nat -> nat)
    ensures Step(S0, Tx0(rent), GRANT, S1)
  {
    Distinct();
    GrantEffects(rent);
    assert Opened(S0, GRANT) == D0;
    assert Runnable([]);
    assert Made(D1, Some(Settle(OUT, [], NO_SPEND))) == D1;
  }

  const S2: State := State(map[OUT := 0, User(C) := 0], D2, 7)

  lemma ExitRecords()
    ensures Opened(S1, EXIT) == D1[OWN := OwnRecord.(counter := 1)]
    ensures Made(Opened(S1, EXIT), Some(Drop(W, OUT))) == D2
  {
    Distinct();
    var d := D1[OWN := OwnRecord.(counter := 1)];
    assert Fine(D1, Tick(OWN)) && Do(D1, Tick(OWN)) == d;
    assert Fine(d, Drop(W, OUT));
    assert Do(d, Drop(W, OUT)) == D2;
  }

  lemma ExitLamports()
    ensures Drained(map[], OUT, User(C)) == S2.lamports && CanClose(map[], OUT, User(C))
  {
  }

  lemma ExitReads()
    ensures At(S1.data, OWN) == OwnRecord && At(S1.data, OUT) == OutRecord && At(S1.data, W) == Wallet(2) && OWN != OUT
  {
    Distinct();
  }

  lemma ExitSigned(rent: nat -> nat)
    ensures Authenticates(S1, Tx1(rent), ToRemove(OUT, User(C)), W, OWN) && PayerSigns(Tx1(rent))
  {
    ExitReads();
  }

  lemma ExitAllowed(rent: nat -> nat)
    ensures CanRemoveAuthority(S1, Tx1(rent), W, OWN, OUT, User(C))
  {
    ExitReads();
    ExitSigned(rent);
    ExitLamports();
  }

  lemma ExitPays(rent: nat -> nat)
    ensures LamportsAfter(S1, Tx1(rent), EXIT) == S2.lamports
  {
    ExitLamports();
  }

  /** The caller's own passkey removes it. */
  lemma ExitStep(rent: nat -> nat)
    ensures Step(S1, Tx1(rent), EXIT, S2)
  {
    ExitRecords();
    ExitAllowed(rent);
    ExitPays(rent);
  }

  /** One outsider acted, and the caller granted nothing. */
  lemma HonestSteps(rent: nat -> nat)
    ensures Honest(TRUST, S0, Tx0(rent), GRANT, S1) && Honest(TRUST, S1, Tx1(rent), EXIT, S2)
  {
    Distinct();
  }

  const ROWS: Rows := Rows([Row(OWN, OwnRecord.(counter := 1))], [], [], Empty, [Row(TOK, TokenWith(None))], [])

  lemma RowsAreWhatWasThere()
    ensures forall k :: At(D0, k).Token? ==> Row(k, At(D0, k)) in ROWS.owned
    ensures forall k :: At(D2, k).Authority? ==> Row(k, At(D2, k)) in ROWS.authorities
    ensures forall k :: !At(D2, k).Session? && !At(D2, k).Deferred?
    ensures Alone(TRUST, 0, ROWS) && Bad(TRUST, D2, TOK)
  {
    Distinct();
    assert IsOwn(TRUST, ROWS.authorities[0]);
  }

  /**
   Tokens read before the outsider's grant, authorities after its exit: both reads are what was
   there, the verdict is that the wallet is controlled alone, and the outsider can still spend.
   */
  lemma TokensFirstIsUnsafe(rent: nat -> nat)
    ensures Step(S0, Tx0(rent), GRANT, S1) && Step(S1, Tx1(rent), EXIT, S2)
    ensures Honest(TRUST, S0, Tx0(rent), GRANT, S1) && Honest(TRUST, S1, Tx1(rent), EXIT, S2)
    ensures forall k :: At(S0.data, k).Token? ==> Row(k, At(S0.data, k)) in ROWS.owned
    ensures forall k :: At(S2.data, k).Authority? ==> Row(k, At(S2.data, k)) in ROWS.authorities
    ensures forall k :: !At(S2.data, k).Session? && !At(S2.data, k).Deferred?
    ensures Alone(TRUST, 0, ROWS) && Bad(TRUST, S2.data, TOK)
  {
    GrantStep(rent);
    ExitStep(rent);
    HonestSteps(rent);
    RowsAreWhatWasThere();
  }
}
