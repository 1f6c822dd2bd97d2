/**
 Token accounts as the token programs pack them: the 165-byte base layout of SPL Token, and
 Token-2022's account type and extensions behind it. Every field is where the wallet program
 reads it, and its freeze and its cleanliness check are what they are said to be of the fields.
 */
module PackedTokens {
  import opened Bytes
  import opened TokenAccounts

  datatype AccountState = Uninitialized | Initialized | FrozenState

  /** An optional key; clearing one resets its tag and leaves the bytes of the last one. */
  datatype Right = Nobody(stale: Key) | GrantedTo(holder: Key)

  datatype Native = NotNative(stale: u64) | RentReserve(amount: u64)

  datatype TokenRecord = TokenRecord(
    mint: Key, owner: Key, amount: u64, delegate: Right, state: AccountState, native: Native, delegated: u64,
    closer: Right)

  function PackRight(r: Right): (s: seq<byte>)
    ensures |s| == 36
  {
    match r
    case Nobody(stale) => [0, 0, 0, 0] + stale
    case GrantedTo(k) => [1, 0, 0, 0] + k
  }

  function PackNative(n: Native): (s: seq<byte>)
    ensures |s| == 12
  {
    match n
    case NotNative(stale) => [0, 0, 0, 0] + ToLe(stale, 8)
    case RentReserve(amount) => [1, 0, 0, 0] + ToLe(amount, 8)
  }

  function StateByte(s: AccountState): byte {
    match s
    case Uninitialized => 0
    case Initialized => 1
    case FrozenState => 2
  }

  /** The 165 bytes of the base layout. */
  function Pack(t: TokenRecord): (s: seq<byte>)
    ensures |s| == 165
  {
    t.mint + t.owner + ToLe(t.amount, 8) + PackRight(t.delegate) + [StateByte(t.state)] + PackNative(t.native)
    + ToLe(t.delegated, 8) + PackRight(t.closer)
  }

  /** What follows the base layout: nothing, or Token-2022's account type and its extensions. */
  datatype Tail = Bare | Extended(accountType: byte, extensions: seq<byte>)

  function PackTail(x: Tail): seq<byte> {
    match x
    case Bare => []
    case Extended(kind, extensions) => [kind] + extensions
  }

  function Image(t: TokenRecord, x: Tail): seq<byte> {
    Pack(t) + PackTail(x)
  }

  /** Where each field is. */
  ghost predicate Fielded(d: seq<byte>, t: TokenRecord) {
    && |d| >= 165
    && d[..32] == t.mint && d[32..64] == t.owner && d[64..72] == ToLe(t.amount, 8)
    && d[72..108] == PackRight(t.delegate) && d[108] == StateByte(t.state)
    && d[109..121] == PackNative(t.native) && d[121..129] == ToLe(t.delegated, 8)
    && d[129..165] == PackRight(t.closer)
  }

  lemma Pieces(
    mint: seq<byte>, owner: seq<byte>, amount: seq<byte>, delegate: seq<byte>, state: byte, native: seq<byte>,
    delegated: seq<byte>, closer: seq<byte>, tail: seq<byte>, d: seq<byte>)
    requires |mint| == 32 && |owner| == 32 && |amount| == 8 && |delegate| == 36 && |native| == 12
    requires |delegated| == 8 && |closer| == 36
    requires d == mint + owner + amount + delegate + [state] + native + delegated + closer + tail
    ensures |d| >= 165 && d[..32] == mint && d[32..64] == owner && d[64..72] == amount && d[72..108] == delegate
    ensures d[108] == state && d[109..121] == native && d[121..129] == delegated && d[129..165] == closer
    ensures d[165..] == tail
  {
  }

  lemma FieldBytes(t: TokenRecord, x: Tail)
    ensures Fielded(Image(t, x), t) && Image(t, x)[165..] == PackTail(x)
  {
    Pieces(t.mint, t.owner, ToLe(t.amount, 8), PackRight(t.delegate), StateByte(t.state), PackNative(t.native),
           ToLe(t.delegated, 8), PackRight(t.closer), PackTail(x), Image(t, x));
  }

  lemma TagOfRight(r: Right)
    ensures PackRight(r)[..4] == [0, 0, 0, 0] <==> r.Nobody?
  {
    assert r.GrantedTo? ==> PackRight(r)[..4][0] == 1;
  }

  lemma TagOfNative(n: Native)
    ensures PackNative(n)[..4] == [0, 0, 0, 0] <==> n.NotNative?
  {
    assert n.RentReserve? ==> PackNative(n)[..4][0] == 1;
  }

  lemma Tags(t: TokenRecord, x: Tail)
    ensures var d := Image(t, x);
            && d[72..76] == PackRight(t.delegate)[..4] && d[109..113] == PackNative(t.native)[..4]
            && d[129..133] == PackRight(t.closer)[..4]
  {
    var d := Image(t, x);
    FieldBytes(t, x);
    SliceOfSlice(d, 72, 108, 0, 4);
    SliceOfSlice(d, 109, 121, 0, 4);
    SliceOfSlice(d, 129, 165, 0, 4);
    assert PackRight(t.delegate)[0..4] == PackRight(t.delegate)[..4];
    assert PackNative(t.native)[0..4] == PackNative(t.native)[..4];
    assert PackRight(t.closer)[0..4] == PackRight(t.closer)[..4];
  }

  /** Every reader returns its field. */
  lemma FieldsReadBack(t: TokenRecord, x: Tail)
    ensures var d := Image(t, x);
            && MintOf(d) == t.mint && OwnerOf(d) == t.owner && AmountIn(d) == t.amount
            && DelegatedAmount(d) == t.delegated
            && (IsNative(d) <==> t.native.RentReserve?)
            && (NoDelegate(d) <==> t.delegate.Nobody?)
            && (NoCloseAuthority(d) <==> t.closer.Nobody?)
  {
    FieldBytes(t, x);
    Tags(t, x);
    TagOfRight(t.delegate);
    TagOfRight(t.closer);
    TagOfNative(t.native);
    PowersOf256();
    FromToLe(t.amount, 8);
    FromToLe(t.delegated, 8);
  }

  /**
   A packed account counts as one of the vault's exactly when it is initialized, of one of the
   token programs, held by the vault and, with extensions, of Token-2022's account type and not
   of a multisig's length.
   */
  lemma VaultTokenExactly(program: Key, lamports: u64, t: TokenRecord, x: Tail, vault: Key)
    ensures IsVaultToken(Account(program, lamports, Image(t, x)), vault) <==>
            && t.state != Uninitialized && t.owner == vault
            && (x.Bare? ==> program == SPL_TOKEN || program == SPL_TOKEN_2022)
            && (x.Extended? ==> program == SPL_TOKEN_2022 && x.accountType == 2 && 166 + |x.extensions| != 355)
  {
    FieldBytes(t, x);
    var d := Image(t, x);
    if x.Extended? {
      assert d[165] == d[165..][0] == x.accountType;
    }
  }

  /** What an Execute may do to a token account the vault had: move its balance and use up a delegation. */
  ghost predicate OnlySpent(t: TokenRecord, before: u64, u: TokenRecord, after: u64) {
    && u.(amount := t.amount, delegated := t.delegated) == t
    && u.delegated <= t.delegated && after > 0
    && (after < before ==> t.native.RentReserve? && before - after <= t.amount - u.amount)
  }

  lemma RightsPackedApart(r: Right, q: Right)
    requires PackRight(r) == PackRight(q)
    ensures r == q
  {
    TagOfRight(r);
    TagOfRight(q);
    assert PackRight(r)[4..] == if r.Nobody? then r.stale else r.holder;
    assert PackRight(q)[4..] == if q.Nobody? then q.stale else q.holder;
  }

  lemma NativesPackedApart(n: Native, m: Native)
    requires PackNative(n) == PackNative(m)
    ensures n == m
  {
    TagOfNative(n);
    TagOfNative(m);
    var x, y: u64 := if n.NotNative? then n.stale else n.amount, if m.NotNative? then m.stale else m.amount;
    assert PackNative(n)[4..] == ToLe(x, 8) && PackNative(m)[4..] == ToLe(y, 8);
    PowersOf256();
    FromToLe(x, 8);
    FromToLe(y, 8);
  }

  /** Equal bytes outside the two balances are equal fields. */
  ghost predicate SameOutsideBalances(a: seq<byte>, b: seq<byte>)
    requires |a| >= 165 && |b| >= 165
  {
    forall i :: 0 <= i < 165 && !(64 <= i < 72) && !(121 <= i < 129) ==> b[i] == a[i]
  }

  /** The slices of the other fields agree. */
  ghost predicate SameSlices(a: seq<byte>, b: seq<byte>)
    requires |a| >= 165 && |b| >= 165
  {
    && a[..32] == b[..32] && a[32..64] == b[32..64] && a[72..108] == b[72..108] && a[108] == b[108]
    && a[109..121] == b[109..121] && a[129..165] == b[129..165]
  }

  lemma SameSlice(a: seq<byte>, b: seq<byte>, i: nat)
    requires |a| >= 165 && |b| >= 165 && i < 165 && !(64 <= i < 72) && !(121 <= i < 129)
    requires SameSlices(a, b)
    ensures a[i] == b[i]
  {
    if i < 32 {
      assert a[i] == a[..32][i] && b[i] == b[..32][i];
    } else if i < 64 {
      assert a[i] == a[32..64][i - 32] && b[i] == b[32..64][i - 32];
    } else if 72 <= i < 108 {
      assert a[i] == a[72..108][i - 72] && b[i] == b[72..108][i - 72];
    } else if 109 <= i < 121 {
      assert a[i] == a[109..121][i - 109] && b[i] == b[109..121][i - 109];
    } else if i > 108 {
      assert a[i] == a[129..165][i - 129] && b[i] == b[129..165][i - 129];
    }
  }

  lemma SlicesAgree(a: seq<byte>, b: seq<byte>)
    requires |a| >= 165 && |b| >= 165
    ensures SameOutsideBalances(a, b) <==> SameSlices(a, b)
  {
    if SameSlices(a, b) {
      forall i | 0 <= i < 165 && !(64 <= i < 72) && !(121 <= i < 129) ensures b[i] == a[i] {
        SameSlice(a, b, i);
      }
    }
  }

  lemma SlicesAreFields(a: seq<byte>, t: TokenRecord, b: seq<byte>, u: TokenRecord)
    requires Fielded(a, t) && Fielded(b, u)
    ensures SameSlices(a, b) <==> u.(amount := t.amount, delegated := t.delegated) == t
  {
    if SameSlices(a, b) {
      RightsPackedApart(t.delegate, u.delegate);
      RightsPackedApart(t.closer, u.closer);
      NativesPackedApart(t.native, u.native);
    }
  }

  lemma SameBytesSameFields(t: TokenRecord, x: Tail, u: TokenRecord, y: Tail)
    ensures SameOutsideBalances(Image(t, x), Image(u, y)) <==> u.(amount := t.amount, delegated := t.delegated) == t
  {
    FieldBytes(t, x);
    FieldBytes(u, y);
    SlicesAgree(Image(t, x), Image(u, y));
    SlicesAreFields(Image(t, x), t, Image(u, y), u);
  }

  /**
   The freeze, in terms of fields: a packed account passes exactly when it is still a token
   account of the same length and was only spent from.
   */
  lemma FrozenExactly(
      p: Key, before: u64, t: TokenRecord, x: Tail, q: Key, after: u64, u: TokenRecord, y: Tail)
    ensures Frozen(Account(p, before, Image(t, x)), Account(q, after, Image(u, y))) <==>
            && |Image(u, y)| == |Image(t, x)| && IsTokenAccount(q, Image(u, y))
            && OnlySpent(t, before, u, after)
  {
    FieldsReadBack(t, x);
    FieldsReadBack(u, y);
    SameBytesSameFields(t, x, u, y);
  }

  /** Nobody else's rights, in terms of fields. */
  lemma CleanExactly(p: Key, lamports: u64, t: TokenRecord, x: Tail)
    ensures Clean(Account(p, lamports, Image(t, x))) <==> t.delegate.Nobody? && t.closer.Nobody?
  {
    FieldsReadBack(t, x);
  }

  /** A mint or multisig, and anything shorter than an account, is none. */
  lemma OthersAreNone(program: Key, data: seq<byte>)
    ensures |data| < 165 || |data| == 355 || (|data| > 165 && data[165] == 1) ==> !IsTokenAccount(program, data)
  {
  }
}
