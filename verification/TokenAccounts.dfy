/**
 The vault's token accounts across an Execute (`program/src/processor/execute/actions.rs`):
 copied before the inner instructions, held to everything but their balance afterwards, and
 measured mint by mint over exactly the copied accounts.
 */
module TokenAccounts {
  import opened Bytes
  import opened Limits
  import opened Compact
  import opened Sums

  const MAX_TX_ACCOUNTS: nat := 255

  const TOKEN_LEN: nat := 165
  const MULTISIG_LEN: nat := 355

  const SPL_TOKEN: Key := [
    6, 221, 246, 225, 215, 101, 161, 147, 217, 203, 225, 70, 206, 235, 121, 172, 28, 180, 133, 237,
    95, 91, 55, 145, 58, 140, 245, 133, 126, 255, 0, 169]

  const SPL_TOKEN_2022: Key := [
    6, 221, 246, 225, 238, 117, 143, 222, 24, 66, 93, 188, 228, 108, 205, 218, 182, 26, 252, 77,
    131, 185, 13, 39, 254, 189, 249, 40, 216, 161, 139, 252]

  datatype Account = Account(owner: Key, lamports: u64, data: seq<byte>)

  /** Every account the transaction can see, by key. */
  type Bank = map<Key, Account>

  // ---------------------------------------------------------------------------
  // Layout
  // ---------------------------------------------------------------------------

  /** An initialized token account: not a mint, not a multisig, not an uninitialized account. */
  predicate IsTokenAccount(program: Key, data: seq<byte>) {
    && |data| >= TOKEN_LEN
    && (data[108] == 1 || data[108] == 2)
    && if |data| == TOKEN_LEN
       then program == SPL_TOKEN || program == SPL_TOKEN_2022
       else program == SPL_TOKEN_2022 && |data| != MULTISIG_LEN && data[165] == 2
  }

  function MintOf(data: seq<byte>): Key
    requires |data| >= TOKEN_LEN
  {
    data[..32]
  }

  function OwnerOf(data: seq<byte>): Key
    requires |data| >= TOKEN_LEN
  {
    data[32..64]
  }

  function AmountIn(data: seq<byte>): u64
    requires |data| >= TOKEN_LEN
  {
    ReadU64(data, 64)
  }

  function DelegatedAmount(data: seq<byte>): u64
    requires |data| >= TOKEN_LEN
  {
    ReadU64(data, 121)
  }

  const NONE_TAG: seq<byte> := [0, 0, 0, 0]

  predicate IsNative(data: seq<byte>)
    requires |data| >= TOKEN_LEN
  {
    data[109..113] != NONE_TAG
  }

  predicate NoDelegate(data: seq<byte>)
    requires |data| >= TOKEN_LEN
  {
    data[72..76] == NONE_TAG
  }

  predicate NoCloseAuthority(data: seq<byte>)
    requires |data| >= TOKEN_LEN
  {
    data[129..133] == NONE_TAG
  }

  /** An initialized token account whose owner field is the vault. */
  predicate IsVaultToken(acc: Account, vault: Key) {
    IsTokenAccount(acc.owner, acc.data) && OwnerOf(acc.data) == vault
  }

  /** `is_snapshot_candidate`. */
  predicate IsCandidate(list: Listing, bank: Bank, vault: Key, key: Key) {
    key in list.writable && key in bank && IsVaultToken(bank[key], vault)
  }

  predicate Listed(list: Listing, bank: Bank) {
    forall i :: 0 <= i < |list.keys| ==> list.keys[i] in bank
  }

  // ---------------------------------------------------------------------------
  // The copy
  // ---------------------------------------------------------------------------

  datatype Snapshot = Snapshot(index: nat, dataLen: nat, lamports: u64, base: seq<byte>)

  /** `i` is where its key is first listed. */
  ghost predicate IsFirst<T>(keys: seq<T>, i: nat)
    requires i < |keys|
  {
    forall p :: 0 <= p < i ==> keys[p] != keys[i]
  }

  lemma {:induction false} FirstExists<T>(keys: seq<T>, i: nat) returns (f: nat)
    requires i < |keys|
    ensures f <= i && keys[f] == keys[i] && IsFirst(keys, f)
  {
    if IsFirst(keys, i) {
      f := i;
    } else {
      var p :| 0 <= p < i && keys[p] == keys[i];
      f := FirstExists(keys, p);
    }
  }

  /** The copies are in list order, and are exactly the candidates, each at its first position. */
  ghost predicate IsSnapshotOf(snaps: seq<Snapshot>, list: Listing, bank: Bank, vault: Key) {
    && (forall i :: 0 <= i < |snaps| ==> Copies(snaps[i], list, bank, vault) && IsFirst(list.keys, snaps[i].index))
    && (forall i, j :: 0 <= i < j < |snaps| ==> snaps[i].index < snaps[j].index)
    && (forall p: nat :: p < |list.keys| && IsFirst(list.keys, p) && IsCandidate(list, bank, vault, list.keys[p]) ==>
          exists i :: 0 <= i < |snaps| && snaps[i].index == p)
  }

  ghost predicate Copies(s: Snapshot, list: Listing, bank: Bank, vault: Key) {
    && s.index < |list.keys|
    && IsCandidate(list, bank, vault, list.keys[s.index])
    && var acc := bank[list.keys[s.index]];
       s.dataLen == |acc.data| && s.lamports == acc.lamports && s.base == acc.data[..TOKEN_LEN]
  }

  /** `fs` are, in order, the first positions below `n` of the wanted keys. */
  ghost predicate FirstPositions<T>(keys: seq<T>, wanted: T -> bool, fs: seq<nat>, n: nat)
    requires n <= |keys|
  {
    && (forall i, j :: 0 <= i < j < |fs| ==> fs[i] < fs[j])
    && (forall p: nat :: p in fs ==> p < n && IsFirst(keys, p) && wanted(keys[p]))
    && (forall p: nat :: p < n && IsFirst(keys, p) && wanted(keys[p]) ==> p in fs)
  }

  /** Whether `key` sits at one of the positions found so far. */
  method AlreadyFound<T(==)>(keys: seq<T>, found: array<nat>, count: nat, key: T) returns (seen: bool)
    requires count <= found.Length && forall i :: 0 <= i < count ==> found[i] < |keys|
    ensures seen <==> exists j :: 0 <= j < count && keys[found[j]] == key
  {
    seen := false;
    for i := 0 to count
      invariant seen <==> exists j :: 0 <= j < i && keys[found[j]] == key
    {
      seen := seen || keys[found[i]] == key;
    }
  }

  /** Looking among the positions already found is enough to recognise a repeat. */
  lemma FoundIffRepeat<T>(keys: seq<T>, wanted: T -> bool, fs: seq<nat>, n: nat)
    requires n < |keys| && FirstPositions(keys, wanted, fs, n) && wanted(keys[n])
    ensures forall i :: 0 <= i < |fs| ==> fs[i] < n
    ensures (exists i :: 0 <= i < |fs| && keys[fs[i]] == keys[n]) <==> !IsFirst(keys, n)
  {
    forall i | 0 <= i < |fs| ensures fs[i] < n {
      assert fs[i] in fs;
    }
    if !IsFirst(keys, n) {
      var f := FirstExists(keys, n);
      assert f in fs;
    }
  }

  lemma PositionTaken<T>(keys: seq<T>, wanted: T -> bool, fs: seq<nat>, n: nat)
    requires n < |keys| && FirstPositions(keys, wanted, fs, n) && wanted(keys[n]) && IsFirst(keys, n)
    ensures FirstPositions(keys, wanted, fs + [n], n + 1)
  {
    forall i | 0 <= i < |fs| ensures fs[i] < n {
      assert fs[i] in fs;
    }
  }

  /** One walk; a repeat is looked for only among the positions already found. */
  method FindFirstPositions<T(==)>(keys: seq<T>, wanted: T -> bool, found: array<nat>) returns (count: nat)
    requires |keys| <= found.Length
    modifies found
    ensures count <= found.Length && FirstPositions(keys, wanted, found[..count], |keys|)
  {
    count := 0;
    for index := 0 to |keys|
      invariant count <= index
      invariant FirstPositions(keys, wanted, found[..count], index)
    {
      if wanted(keys[index]) {
        ghost var fs := found[..count];
        FoundIffRepeat(keys, wanted, fs, index);
        assert forall i :: 0 <= i < count ==> found[i] == fs[i];
        var seen := AlreadyFound(keys, found, count, keys[index]);
        if !seen {
          PositionTaken(keys, wanted, fs, index);
          found[count] := index;
          count := count + 1;
          assert found[..count] == fs + [index];
        }
      }
    }
  }

  /** `snapshot_vault_token_accounts`. */
  method SnapshotVaultTokenAccounts(list: Listing, bank: Bank, vault: Key) returns (snaps: seq<Snapshot>)
    requires Listed(list, bank) && |list.keys| <= MAX_TX_ACCOUNTS
    ensures IsSnapshotOf(snaps, list, bank, vault)
  {
    var found := new nat[MAX_TX_ACCOUNTS](_ => 0);
    var wanted := (k: Key) => IsCandidate(list, bank, vault, k);
    var count := FindFirstPositions(list.keys, wanted, found);
    ghost var fs := found[..count];
    snaps := [];
    for i := 0 to count
      invariant |snaps| == i
      invariant forall j :: 0 <= j < i ==>
                snaps[j].index == fs[j] && Copies(snaps[j], list, bank, vault) && IsFirst(list.keys, snaps[j].index)
    {
      assert found[i] == fs[i] && fs[i] in fs && wanted(list.keys[fs[i]]);
      var acc := bank[list.keys[found[i]]];
      snaps := snaps + [Snapshot(found[i], |acc.data|, acc.lamports, acc.data[..TOKEN_LEN])];
    }
    forall p: nat | p < |list.keys| && IsFirst(list.keys, p) && IsCandidate(list, bank, vault, list.keys[p])
      ensures exists i :: 0 <= i < |snaps| && snaps[i].index == p
    {
      assert wanted(list.keys[p]) && p in fs;
      var i :| 0 <= i < |fs| && fs[i] == p;
      assert snaps[i].index == fs[i];
    }
  }

  // ---------------------------------------------------------------------------
  // The freeze
  // ---------------------------------------------------------------------------

  /** `base_unchanged_except_balance`: all but the amount kept, the delegated amount not raised. */
  predicate BaseKept(before: seq<byte>, after: seq<byte>)
    requires |before| == TOKEN_LEN
  {
    && |after| >= TOKEN_LEN
    && after[..64] == before[..64]
    && after[72..121] == before[72..121]
    && after[129..165] == before[129..165]
    && DelegatedAmount(after) <= DelegatedAmount(before)
  }

  /** `lamports_kept`: lamports fell only by what a native account's amount fell by. */
  predicate LamportsKept(lamportsBefore: u64, before: seq<byte>, lamportsAfter: u64, after: seq<byte>)
    requires |before| == TOKEN_LEN && |after| >= TOKEN_LEN
  {
    var drop := SatSub(lamportsBefore, lamportsAfter);
    drop == 0 || (IsNative(before) && drop <= SatSub(AmountIn(before), AmountIn(after)))
  }

  /** One copied account held to its copy. */
  predicate Held(s: Snapshot, acc: Account)
    requires |s.base| == TOKEN_LEN
  {
    && acc.lamports != 0
    && |acc.data| == s.dataLen
    && IsTokenAccount(acc.owner, acc.data)
    && BaseKept(s.base, acc.data)
    && LamportsKept(s.lamports, s.base, acc.lamports, acc.data)
  }

  /** What the freeze means for an account, whole: byte by byte, nothing but its balance moved. */
  ghost predicate Frozen(before: Account, after: Account) {
    && |before.data| >= TOKEN_LEN
    && |after.data| == |before.data|
    && IsTokenAccount(after.owner, after.data)
    && after.lamports > 0
    && (forall i :: 0 <= i < TOKEN_LEN && !(64 <= i < 72) && !(121 <= i < 129) ==> after.data[i] == before.data[i])
    && DelegatedAmount(after.data) <= DelegatedAmount(before.data)
    && (after.lamports < before.lamports ==>
          IsNative(before.data) && before.lamports - after.lamports <= AmountIn(before.data) - AmountIn(after.data))
  }

  lemma HeldMeansFrozen(s: Snapshot, before: Account, after: Account)
    requires |before.data| >= TOKEN_LEN
    requires s.dataLen == |before.data| && s.lamports == before.lamports && s.base == before.data[..TOKEN_LEN]
    ensures Held(s, after) <==> Frozen(before, after)
  {
    var b, x, y := s.base, before.data, after.data;
    assert b[64..72] == x[64..72] && b[121..129] == x[121..129] && b[109..113] == x[109..113];
    if Held(s, after) {
      forall i | 0 <= i < TOKEN_LEN && !(64 <= i < 72) && !(121 <= i < 129) ensures y[i] == x[i] {
        if i < 64 {
          assert y[..64][i] == b[..64][i];
        } else if i < 121 {
          assert y[72..121][i - 72] == b[72..121][i - 72];
        } else {
          assert y[129..165][i - 129] == b[129..165][i - 129];
        }
      }
    }
    if Frozen(before, after) {
      assert y[..64] == b[..64];
      assert y[72..121] == b[72..121];
      assert y[129..165] == b[129..165];
    }
  }

  /** `binary_search_by_key` over the copies, which are in index order. */
  method HasIndex(snaps: seq<Snapshot>, index: nat) returns (found: bool)
    requires forall i, j :: 0 <= i < j < |snaps| ==> snaps[i].index < snaps[j].index
    ensures found <==> exists i :: 0 <= i < |snaps| && snaps[i].index == index
  {
    var lo, hi := 0, |snaps|;
    while lo < hi
      invariant 0 <= lo <= hi <= |snaps|
      invariant forall i :: 0 <= i < lo ==> snaps[i].index < index
      invariant forall i :: hi <= i < |snaps| ==> snaps[i].index > index
    {
      var mid := (lo + hi) / 2;
      if snaps[mid].index == index {
        return true;
      } else if snaps[mid].index < index {
        lo := mid + 1;
      } else {
        hi := mid;
      }
    }
    return false;
  }

  method RepeatsEarlier(list: Listing, i: nat) returns (repeats: bool)
    requires i < |list.keys|
    ensures repeats <==> exists p :: 0 <= p < i && list.keys[p] == list.keys[i]
  {
    repeats := false;
    for p := 0 to i
      invariant repeats <==> exists q :: 0 <= q < p && list.keys[q] == list.keys[i]
    {
      repeats := repeats || list.keys[p] == list.keys[i];
    }
  }

  /** An account that became the vault's during the Execute and carries nobody else's rights. */
  ghost predicate Clean(acc: Account) {
    |acc.data| >= TOKEN_LEN && NoDelegate(acc.data) && NoCloseAuthority(acc.data)
  }

  /**
   What a passing check guarantees of a listed account: one that was the vault's is frozen, one
   that became the vault's is clean.
   */
  ghost predicate Kept(list: Listing, before: Bank, after: Bank, vault: Key, key: Key)
    requires key in before && key in after
  {
    && (IsCandidate(list, before, vault, key) ==> Frozen(before[key], after[key]))
    && (!IsCandidate(list, before, vault, key) && IsCandidate(list, after, vault, key) ==> Clean(after[key]))
  }

  /** Every copied account still matches its copy. */
  ghost predicate AllFrozen(snaps: seq<Snapshot>, list: Listing, before: Bank, bank: Bank, vault: Key)
    requires Listed(list, before) && Listed(list, bank) && IsSnapshotOf(snaps, list, before, vault)
  {
    forall i :: 0 <= i < |snaps| ==> Frozen(before[list.keys[snaps[i].index]], bank[list.keys[snaps[i].index]])
  }

  method CopiesHeld(snaps: seq<Snapshot>, list: Listing, ghost before: Bank, bank: Bank, vault: Key) returns (ok: bool)
    requires Listed(list, before) && Listed(list, bank)
    requires IsSnapshotOf(snaps, list, before, vault)
    ensures ok <==> AllFrozen(snaps, list, before, bank, vault)
  {
    for i := 0 to |snaps|
      invariant forall j :: 0 <= j < i ==> Frozen(before[list.keys[snaps[j].index]], bank[list.keys[snaps[j].index]])
    {
      var key := list.keys[snaps[i].index];
      assert Copies(snaps[i], list, before, vault);
      HeldMeansFrozen(snaps[i], before[key], bank[key]);
      if !Held(snaps[i], bank[key]) {
        return false;
      }
    }
    return true;
  }

  /** A copy exists for a key exactly when it was a candidate; it sits at the key's first position. */
  lemma CandidateIsCopied(snaps: seq<Snapshot>, list: Listing, before: Bank, vault: Key, index: nat) returns (i: nat)
    requires Listed(list, before) && index < |list.keys| && IsSnapshotOf(snaps, list, before, vault)
    requires IsCandidate(list, before, vault, list.keys[index])
    ensures i < |snaps| && snaps[i].index <= index && list.keys[snaps[i].index] == list.keys[index]
  {
    var f := FirstExists(list.keys, index);
    i :| 0 <= i < |snaps| && snaps[i].index == f;
  }

  /** The second loop's body: whether the account at `index` may pass. */
  method PassesAt(
      snaps: seq<Snapshot>, list: Listing, ghost before: Bank, bank: Bank, vault: Key, index: nat) returns (ok: bool)
    requires Listed(list, before) && Listed(list, bank) && index < |list.keys|
    requires IsSnapshotOf(snaps, list, before, vault) && AllFrozen(snaps, list, before, bank, vault)
    requires forall p :: 0 <= p < index ==> Kept(list, before, bank, vault, list.keys[p])
    ensures ok <==> Kept(list, before, bank, vault, list.keys[index])
  {
    var key := list.keys[index];
    if IsCandidate(list, before, vault, key) {
      ghost var i := CandidateIsCopied(snaps, list, before, vault, index);
      assert Frozen(before[key], bank[key]);
    }
    if !IsCandidate(list, bank, vault, key) {
      return true;
    }
    var copied := HasIndex(snaps, index);
    if copied {
      ghost var i :| 0 <= i < |snaps| && snaps[i].index == index;
      assert Copies(snaps[i], list, before, vault);
      return true;
    }
    var repeats := RepeatsEarlier(list, index);
    if repeats {
      return true;
    }
    assert !IsCandidate(list, before, vault, key) by {
      assert IsFirst(list.keys, index);
    }
    ok := bank[key].data[72..76] == NONE_TAG && bank[key].data[129..133] == NONE_TAG;
  }

  /** `verify_vault_token_accounts`: passes exactly when every listed account is kept. */
  method VerifyVaultTokenAccounts(
      snaps: seq<Snapshot>, list: Listing, ghost before: Bank, bank: Bank, vault: Key) returns (ok: bool)
    requires Listed(list, before) && Listed(list, bank)
    requires IsSnapshotOf(snaps, list, before, vault)
    ensures ok <==> forall p :: 0 <= p < |list.keys| ==> Kept(list, before, bank, vault, list.keys[p])
  {
    var held := CopiesHeld(snaps, list, before, bank, vault);
    if !held {
      ghost var i :| 0 <= i < |snaps| && !Frozen(before[list.keys[snaps[i].index]], bank[list.keys[snaps[i].index]]);
      assert Copies(snaps[i], list, before, vault);
      assert !Kept(list, before, bank, vault, list.keys[snaps[i].index]);
      return false;
    }
    for index := 0 to |list.keys|
      invariant forall p :: 0 <= p < index ==> Kept(list, before, bank, vault, list.keys[p])
    {
      var passes := PassesAt(snaps, list, before, bank, vault, index);
      if !passes {
        return false;
      }
    }
    return true;
  }

  // ---------------------------------------------------------------------------
  // The measure
  // ---------------------------------------------------------------------------

  ghost predicate AllTokens(bank: Bank, keys: set<Key>) {
    forall k :: k in keys ==> k in bank && |bank[k].data| >= TOKEN_LEN
  }

  /** What `bank` holds of `mint` in `keys`, sorted into mints as they stood in `before`. */
  ghost function Holdings(before: Bank, bank: Bank, keys: set<Key>, mint: Key): map<Key, nat>
    requires AllTokens(before, keys) && AllTokens(bank, keys)
  {
    map k | k in keys && MintOf(before[k].data) == mint :: AmountIn(bank[k].data)
  }

  ghost function TotalOf(before: Bank, bank: Bank, keys: set<Key>, mint: Key): nat
    requires AllTokens(before, keys) && AllTokens(bank, keys)
  {
    Sum(Holdings(before, bank, keys, mint))
  }

  lemma HoldingsGrow(before: Bank, bank: Bank, keys: set<Key>, key: Key, mint: Key)
    requires key !in keys && AllTokens(before, keys + {key}) && AllTokens(bank, keys + {key})
    ensures TotalOf(before, bank, keys + {key}, mint)
         == TotalOf(before, bank, keys, mint) + if MintOf(before[key].data) == mint then AmountIn(bank[key].data) else 0
  {
    var small, large := Holdings(before, bank, keys, mint), Holdings(before, bank, keys + {key}, mint);
    if MintOf(before[key].data) == mint {
      assert large == small[key := AmountIn(bank[key].data)];
      SumAdd(small, key, AmountIn(bank[key].data));
    } else {
      assert large == small;
    }
  }

  lemma NoHoldings(before: Bank, bank: Bank, keys: set<Key>, mint: Key)
    requires AllTokens(before, keys) && AllTokens(bank, keys)
    requires forall k :: k in keys ==> MintOf(before[k].data) != mint
    ensures TotalOf(before, bank, keys, mint) == 0
  {
    assert Holdings(before, bank, keys, mint) == map[];
  }

  ghost predicate Measured(f: MintFlow, before: Bank, after: Bank, keys: set<Key>)
    requires AllTokens(before, keys) && AllTokens(after, keys)
  {
    && f.before == Min(TotalOf(before, before, keys, f.mint), U64_MAX)
    && f.after == Min(TotalOf(before, after, keys, f.mint), U64_MAX)
  }

  ghost function MintsIn(before: Bank, keys: set<Key>): set<Key>
    requires AllTokens(before, keys)
  {
    set k | k in keys :: MintOf(before[k].data)
  }

  ghost function MintsOf(flows: seq<MintFlow>): set<Key> {
    set i | 0 <= i < |flows| :: flows[i].mint
  }

  ghost predicate Distinct(flows: seq<MintFlow>) {
    forall i, j :: 0 <= i < j < |flows| ==> flows[i].mint != flows[j].mint
  }

  /** One flow per mint held in `keys`, its two sides the saturated totals. */
  ghost predicate Measures(flows: seq<MintFlow>, before: Bank, after: Bank, keys: set<Key>)
    requires AllTokens(before, keys) && AllTokens(after, keys)
  {
    && Distinct(flows)
    && (forall i :: 0 <= i < |flows| ==> Measured(flows[i], before, after, keys))
    && MintsOf(flows) == MintsIn(before, keys)
  }

  /** `f` with one more account folded in. */
  function Fold(f: MintFlow, before: u64, after: u64): MintFlow {
    MintFlow(f.mint, SatAdd(f.before, before), SatAdd(f.after, after))
  }

  /** `add_flow`: fold one account into its mint's entry, or open one. */
  method AddFlow(flows: seq<MintFlow>, mint: Key, before: u64, after: u64) returns (r: seq<MintFlow>, ghost at: nat)
    requires Distinct(flows)
    ensures if mint in MintsOf(flows)
            then at < |flows| && flows[at].mint == mint && r == flows[at := Fold(flows[at], before, after)]
            else r == flows + [MintFlow(mint, before, after)]
    ensures |r| == |flows| + if mint in MintsOf(flows) then 0 else 1
    ensures forall i :: 0 <= i < |flows| ==>
              r[i] == if flows[i].mint == mint then Fold(flows[i], before, after) else flows[i]
    ensures mint !in MintsOf(flows) ==> r[|flows|] == MintFlow(mint, before, after)
  {
    at := 0;
    for i := 0 to |flows|
      invariant forall j :: 0 <= j < i ==> flows[j].mint != mint
    {
      if flows[i].mint == mint {
        assert mint in MintsOf(flows);
        return flows[i := Fold(flows[i], before, after)], i;
      }
    }
    r := flows + [MintFlow(mint, before, after)];
  }

  lemma OtherMintsStay(f: MintFlow, before: Bank, after: Bank, keys: set<Key>, key: Key)
    requires key !in keys && AllTokens(before, keys + {key}) && AllTokens(after, keys + {key})
    requires f.mint != MintOf(before[key].data) && Measured(f, before, after, keys)
    ensures Measured(f, before, after, keys + {key})
  {
    HoldingsGrow(before, before, keys, key, f.mint);
    HoldingsGrow(before, after, keys, key, f.mint);
  }

  lemma FoldMeasures(f: MintFlow, before: Bank, after: Bank, keys: set<Key>, key: Key)
    requires key !in keys && AllTokens(before, keys + {key}) && AllTokens(after, keys + {key})
    requires f.mint == MintOf(before[key].data) && Measured(f, before, after, keys)
    ensures Measured(Fold(f, AmountIn(before[key].data), AmountIn(after[key].data)), before, after, keys + {key})
  {
    HoldingsGrow(before, before, keys, key, f.mint);
    HoldingsGrow(before, after, keys, key, f.mint);
  }

  lemma FirstOfMint(before: Bank, after: Bank, keys: set<Key>, key: Key)
    requires key !in keys && AllTokens(before, keys + {key}) && AllTokens(after, keys + {key})
    requires MintOf(before[key].data) !in MintsIn(before, keys)
    ensures Measured(MintFlow(MintOf(before[key].data), AmountIn(before[key].data), AmountIn(after[key].data)),
              before, after, keys + {key})
  {
    var mint := MintOf(before[key].data);
    NoHoldings(before, before, keys, mint);
    NoHoldings(before, after, keys, mint);
    HoldingsGrow(before, before, keys, key, mint);
    HoldingsGrow(before, after, keys, key, mint);
  }

  /** Measuring one more account is one `add_flow`. */
  lemma MeasureGrows(
      flows: seq<MintFlow>, r: seq<MintFlow>, at: nat, before: Bank, after: Bank, keys: set<Key>, key: Key)
    requires key !in keys && AllTokens(before, keys + {key}) && AllTokens(after, keys + {key})
    requires Measures(flows, before, after, keys)
    requires var mint, b, a := MintOf(before[key].data), AmountIn(before[key].data), AmountIn(after[key].data);
             if mint in MintsOf(flows)
             then at < |flows| && flows[at].mint == mint && r == flows[at := Fold(flows[at], b, a)]
             else r == flows + [MintFlow(mint, b, a)]
    ensures Measures(r, before, after, keys + {key})
  {
    var mint := MintOf(before[key].data);
    assert MintsIn(before, keys + {key}) == MintsIn(before, keys) + {mint};
    if mint in MintsOf(flows) {
      MeasureFolds(flows, at, before, after, keys, key);
    } else {
      MeasureOpens(flows, before, after, keys, key);
    }
  }

  lemma MeasureFolds(flows: seq<MintFlow>, at: nat, before: Bank, after: Bank, keys: set<Key>, key: Key)
    requires key !in keys && AllTokens(before, keys + {key}) && AllTokens(after, keys + {key})
    requires Distinct(flows) && forall i :: 0 <= i < |flows| ==> Measured(flows[i], before, after, keys)
    requires at < |flows| && flows[at].mint == MintOf(before[key].data)
    ensures var r := flows[at := Fold(flows[at], AmountIn(before[key].data), AmountIn(after[key].data))];
            && Distinct(r) && MintsOf(r) == MintsOf(flows)
            && forall i :: 0 <= i < |r| ==> Measured(r[i], before, after, keys + {key})
  {
    var r := flows[at := Fold(flows[at], AmountIn(before[key].data), AmountIn(after[key].data))];
    SameMints(flows, r);
    forall i | 0 <= i < |r| ensures Measured(r[i], before, after, keys + {key}) {
      if i == at {
        FoldMeasures(flows[at], before, after, keys, key);
      } else {
        assert flows[i].mint != flows[at].mint;
        OtherMintsStay(flows[i], before, after, keys, key);
      }
    }
  }

  lemma SameMints(flows: seq<MintFlow>, r: seq<MintFlow>)
    requires |r| == |flows| && forall i :: 0 <= i < |r| ==> r[i].mint == flows[i].mint
    ensures MintsOf(r) == MintsOf(flows) && Distinct(r) == Distinct(flows)
  {
  }

  lemma MeasureOpens(flows: seq<MintFlow>, before: Bank, after: Bank, keys: set<Key>, key: Key)
    requires key !in keys && AllTokens(before, keys + {key}) && AllTokens(after, keys + {key})
    requires Measures(flows, before, after, keys) && MintOf(before[key].data) !in MintsOf(flows)
    ensures var f := MintFlow(MintOf(before[key].data), AmountIn(before[key].data), AmountIn(after[key].data));
            var r := flows + [f];
            && Distinct(r) && MintsOf(r) == MintsOf(flows) + {f.mint}
            && forall i :: 0 <= i < |r| ==> Measured(r[i], before, after, keys + {key})
  {
    var f := MintFlow(MintOf(before[key].data), AmountIn(before[key].data), AmountIn(after[key].data));
    var r := flows + [f];
    MintsOfAppend(flows, f);
    forall i | 0 <= i < |r| ensures Measured(r[i], before, after, keys + {key}) {
      if i == |flows| {
        FirstOfMint(before, after, keys, key);
      } else {
        assert r[i] == flows[i] && flows[i].mint in MintsOf(flows);
        OtherMintsStay(flows[i], before, after, keys, key);
      }
    }
  }

  lemma MintsOfAppend(flows: seq<MintFlow>, f: MintFlow)
    ensures MintsOf(flows + [f]) == MintsOf(flows) + {f.mint}
    ensures Distinct(flows) && f.mint !in MintsOf(flows) ==> Distinct(flows + [f])
  {
    var r := flows + [f];
    assert forall i :: 0 <= i < |flows| ==> flows[i].mint in MintsOf(flows);
    assert forall i :: 0 <= i < |flows| ==> r[i] == flows[i];
    assert r[|flows|] == f;
  }

  ghost function CopiedKeys(snaps: seq<Snapshot>, list: Listing): set<Key>
    requires forall i :: 0 <= i < |snaps| ==> snaps[i].index < |list.keys|
  {
    set i | 0 <= i < |snaps| :: list.keys[snaps[i].index]
  }

  lemma CopiedKeysGrow(snaps: seq<Snapshot>, list: Listing, i: nat)
    requires i < |snaps| && forall j :: 0 <= j < |snaps| ==> snaps[j].index < |list.keys|
    ensures CopiedKeys(snaps[..i + 1], list) == CopiedKeys(snaps[..i], list) + {list.keys[snaps[i].index]}
  {
    assert forall j :: 0 <= j < i ==> snaps[..i + 1][j] == snaps[..i][j];
    assert snaps[..i + 1][i] == snaps[i];
  }

  /** `mint_flows`: each mint's saturated total over the distinct copied accounts, before and after. */
  method MintFlows(
      snaps: seq<Snapshot>, list: Listing, ghost before: Bank, bank: Bank, vault: Key) returns (flows: seq<MintFlow>)
    requires Listed(list, before) && Listed(list, bank)
    requires IsSnapshotOf(snaps, list, before, vault)
    requires forall i :: 0 <= i < |snaps| ==> |bank[list.keys[snaps[i].index]].data| >= TOKEN_LEN
    ensures AllTokens(before, CopiedKeys(snaps, list)) && AllTokens(bank, CopiedKeys(snaps, list))
    ensures Measures(flows, before, bank, CopiedKeys(snaps, list))
  {
    flows := [];
    ghost var done: set<Key> := {};
    assert CopiedKeys(snaps[..0], list) == {};
    for i := 0 to |snaps|
      invariant done == CopiedKeys(snaps[..i], list)
      invariant AllTokens(before, done) && AllTokens(bank, done)
      invariant Measures(flows, before, bank, done)
    {
      var key := list.keys[snaps[i].index];
      assert Copies(snaps[i], list, before, vault);
      assert key !in done by {
        assert IsFirst(list.keys, snaps[i].index);
        forall j | 0 <= j < i ensures list.keys[snaps[..i][j].index] != key {
          assert snaps[j].index < snaps[i].index;
        }
      }
      var base, data := snaps[i].base, bank[key].data;
      assert base[..32] == before[key].data[..32] && base[64..72] == before[key].data[64..72];
      ghost var at;
      ghost var was := flows;
      flows, at := AddFlow(flows, base[..32], ReadU64(base, 64), ReadU64(data, 64));
      MeasureGrows(was, flows, at, before, bank, done, key);
      CopiedKeysGrow(snaps, list, i);
      done := done + {key};
    }
    assert snaps[..|snaps|] == snaps;
  }

  lemma {:induction false} FirstOutflowFinds(flows: seq<MintFlow>, i: nat)
    requires i < |flows| && forall a, b :: 0 <= a < b < |flows| ==> flows[a].mint != flows[b].mint
    ensures FirstOutflow(flows, flows[i].mint) == flows[i].Outflow()
  {
    if i > 0 {
      assert flows[0].mint != flows[i].mint;
      FirstOutflowFinds(flows[1..], i - 1);
    }
  }

  lemma {:induction false} FirstOutflowMisses(flows: seq<MintFlow>, mint: Key)
    requires forall i :: 0 <= i < |flows| ==> flows[i].mint != mint
    ensures FirstOutflow(flows, mint) == 0
  {
    if flows != [] {
      FirstOutflowMisses(flows[1..], mint);
    }
  }

  /** The outflow the engine sees is the fall of the saturated totals. */
  lemma MeasuredOutflow(flows: seq<MintFlow>, before: Bank, after: Bank, keys: set<Key>, mint: Key)
    requires AllTokens(before, keys) && AllTokens(after, keys) && Measures(flows, before, after, keys)
    ensures FirstOutflow(flows, mint)
         == SatSub(Min(TotalOf(before, before, keys, mint), U64_MAX), Min(TotalOf(before, after, keys, mint), U64_MAX))
  {
    if i :| 0 <= i < |flows| && flows[i].mint == mint {
      FirstOutflowFinds(flows, i);
      assert Measured(flows[i], before, after, keys);
    } else {
      FirstOutflowMisses(flows, mint);
      assert mint !in MintsOf(flows);
      assert forall k :: k in keys ==> MintOf(before[k].data) in MintsIn(before, keys);
      NoHoldings(before, before, keys, mint);
      NoHoldings(before, after, keys, mint);
    }
  }

  /**
   The outflow the engine looks up is what the vault's accounts really lost of the mint exactly
   when what they held before fits in 64 bits, or nothing was lost.
   */
  lemma OutflowIsExactIff(flows: seq<MintFlow>, before: Bank, after: Bank, keys: set<Key>, mint: Key)
    requires AllTokens(before, keys) && AllTokens(after, keys) && Measures(flows, before, after, keys)
    ensures var b, a := TotalOf(before, before, keys, mint), TotalOf(before, after, keys, mint);
            FirstOutflow(flows, mint) as int == (if b > a then b - a else 0) <==> b <= U64_MAX || b <= a
  {
    MeasuredOutflow(flows, before, after, keys, mint);
  }
}
