/**
 MigrateWallet (`program/src/processor/migrate.rs`): one signed instruction that sweeps a v1
 vault's token accounts and SOL to a destination and closes the v1 wallet and authority.

 The token and system programs' calls appear as the few rules of theirs the sweep relies on;
 a call they refuse fails the transaction. `fee` is what a mint withholds from a transfer.
 */
module Migrate {
  import opened Bytes
  import Sums

  datatype Data =
    | NoData
    | WalletV1
    | AuthorityV1(wallet: Key, role: byte)
    | TokenAccount(mint: Key, holder: Key, amount: u64, closer: Option<Key>, native: bool, frozen: bool)
    | MintAccount
    | OtherData

  datatype Info = Info(owner: Key, data: Data)

  type Fee = (Key, nat) -> nat

  /** Program ids the instruction compares against. */
  datatype Ids = Ids(program: Key, system: Key, token: Key, token2022: Key)

  datatype Bank = Bank(lamports: map<Key, nat>, info: map<Key, Info>)

  function Lam(b: Bank, k: Key): nat {
    if k in b.lamports then b.lamports[k] else 0
  }

  function At(b: Bank, ids: Ids, k: Key): Info {
    if k in b.info then b.info[k] else Info(ids.system, NoData)
  }

  function Pay(b: Bank, from: Key, to: Key, n: nat): Bank
    requires n <= Lam(b, from) && from != to
  {
    b.(lamports := b.lamports[from := Lam(b, from) - n][to := Lam(b, to) + n])
  }

  // ---------------------------------------------------------------------------
  // One token
  // ---------------------------------------------------------------------------

  /** Source, destination, mint and token program, four accounts a token. */
  datatype Entry = Entry(source: Key, dest: Key, mint: Key, program: Key)

  datatype Plan = Plan(wallet: Key, authority: Key, vault: Key, destination: Key, refund: Key)

  /** What the processor checks of an entry. */
  predicate EntryOk(b: Bank, ids: Ids, p: Plan, e: Entry) {
    && (e.program == ids.token || e.program == ids.token2022)
    && At(b, ids, e.source).owner == e.program && At(b, ids, e.dest).owner == e.program
    && At(b, ids, e.mint).owner == e.program
    && var s, d := At(b, ids, e.source).data, At(b, ids, e.dest).data;
    && s.TokenAccount? && d.TokenAccount?
    && s.holder == p.vault && d.holder == p.destination && s.mint == d.mint && s.mint == e.mint
    && At(b, ids, e.mint).data.MintAccount?
  }

  function Credit(fee: Fee, s: Data): nat
    requires s.TokenAccount?
  {
    var f := fee(s.mint, s.amount);
    if s.native || f > s.amount then s.amount else s.amount - f
  }

  /** When the token program transfers everything from `source` to `dest`. */
  predicate CanTransfer(b: Bank, ids: Ids, fee: Fee, e: Entry)
    requires At(b, ids, e.source).data.TokenAccount? && At(b, ids, e.dest).data.TokenAccount?
  {
    var s, d := At(b, ids, e.source).data, At(b, ids, e.dest).data;
    && !s.frozen && !d.frozen && d.native == s.native
    && (e.source != e.dest ==>
          d.amount + Credit(fee, s) <= U64_MAX && (s.native ==> s.amount <= Lam(b, e.source)))
  }

  /** A transfer of the whole amount; a native one carries its lamports. */
  function Transferred(b: Bank, ids: Ids, fee: Fee, e: Entry): Bank
    requires At(b, ids, e.source).data.TokenAccount?
    requires At(b, ids, e.dest).data.TokenAccount? && CanTransfer(b, ids, fee, e)
  {
    var (s, d) := (At(b, ids, e.source), At(b, ids, e.dest));
    if e.source == e.dest then b
    else
      var paid := if s.data.native then Pay(b, e.source, e.dest, s.data.amount) else b;
      var emptied := s.(data := s.data.(amount := 0));
      var filled := d.(data := d.data.(amount := d.data.amount + Credit(fee, s.data)));
      paid.(info := b.info[e.source := emptied][e.dest := filled])
  }

  /** When the token program closes `source` for the vault. */
  predicate CanCloseToken(b: Bank, ids: Ids, p: Plan, k: Key)
    requires At(b, ids, k).data.TokenAccount?
  {
    var s := At(b, ids, k).data;
    && k != p.refund && (s.native || s.amount == 0) && (s.closer.None? || s.closer.value == p.vault)
    && Lam(b, p.refund) + Lam(b, k) <= U64_MAX
  }

  function Closed(b: Bank, k: Key, refund: Key, gone: Info): Bank
    requires k != refund
  {
    Pay(b, k, refund, Lam(b, k)).(info := b.info[k := gone])
  }

  /** One turn of the token loop: transfer everything, then close the emptied source. */
  function MoveToken(b: Bank, ids: Ids, p: Plan, fee: Fee, e: Entry): Option<Bank> {
    if !EntryOk(b, ids, p, e) then None
    else
      var amount := At(b, ids, e.source).data.amount;
      if amount > 0 && !CanTransfer(b, ids, fee, e) then None
      else
        var moved := if amount > 0 then Transferred(b, ids, fee, e) else b;
        if !CanCloseToken(moved, ids, p, e.source) then None
        else Some(Closed(moved, e.source, p.refund, Info(ids.system, NoData)))
  }

  function MoveTokens(b: Bank, ids: Ids, p: Plan, fee: Fee, es: seq<Entry>): Option<Bank>
    decreases |es|
  {
    if es == [] then Some(b)
    else match MoveTokens(b, ids, p, fee, es[..|es| - 1])
      case None => None
      case Some(m) => MoveToken(m, ids, p, fee, es[|es| - 1])
  }

  // ---------------------------------------------------------------------------
  // The rest of the sweep
  // ---------------------------------------------------------------------------

  /** Everything the vault still holds goes to the destination, or nothing happens at all. */
  function SweepVault(b: Bank, ids: Ids, p: Plan): Option<Bank> {
    var n := Lam(b, p.vault);
    if n == 0 then Some(b)
    else if At(b, ids, p.vault) != Info(ids.system, NoData) || p.destination == p.vault then None
    else if Lam(b, p.destination) + n > U64_MAX then None
    else Some(Pay(b, p.vault, p.destination, n))
  }

  /** `close_program_account`. */
  function CloseProgramAccount(b: Bank, ids: Ids, k: Key, refund: Key): Option<Bank> {
    if k == refund || Lam(b, refund) + Lam(b, k) > U64_MAX then None
    else Some(Closed(b, k, refund, Info(ids.program, NoData)))
  }

  function CloseBoth(b: Bank, ids: Ids, p: Plan): Option<Bank> {
    match CloseProgramAccount(b, ids, p.authority, p.refund)
    case None => None
    case Some(c) => CloseProgramAccount(c, ids, p.wallet, p.refund)
  }

  function Sweep(b: Bank, ids: Ids, p: Plan, fee: Fee, es: seq<Entry>): Option<Bank> {
    match MoveTokens(b, ids, p, fee, es)
    case None => None
    case Some(m) =>
      match SweepVault(m, ids, p)
      case None => None
      case Some(v) => CloseBoth(v, ids, p)
  }

  // ---------------------------------------------------------------------------
  // What the wallet's own key approves
  // ---------------------------------------------------------------------------

  function Keys(sources: seq<Key>): seq<byte> {
    if sources == [] then [] else Keys(sources[..|sources| - 1]) + sources[|sources| - 1]
  }

  function SignedPayload(p: Plan, sources: seq<Key>): seq<byte>
    requires |sources| < 256
  {
    p.destination + p.wallet + [|sources|] + p.refund + Keys(sources)
  }

  function EntryAt(accounts: seq<Key>, i: nat): Entry
    requires 9 + 4 * i + 4 <= |accounts|
  {
    Entry(accounts[9 + 4 * i], accounts[9 + 4 * i + 1], accounts[9 + 4 * i + 2], accounts[9 + 4 * i + 3])
  }

  function Entries(accounts: seq<Key>, n: nat): (es: seq<Entry>)
    requires 9 + 4 * n <= |accounts|
    ensures |es| == n && forall i :: 0 <= i < n ==> es[i] == EntryAt(accounts, i)
  {
    if n == 0 then [] else Entries(accounts, n - 1) + [EntryAt(accounts, n - 1)]
  }

  function Sources(es: seq<Entry>): (ks: seq<Key>)
    ensures |ks| == |es| && forall i :: 0 <= i < |es| ==> ks[i] == es[i].source
  {
    if es == [] then [] else Sources(es[..|es| - 1]) + [es[|es| - 1].source]
  }

  function PlanOf(accounts: seq<Key>): Plan
    requires |accounts| >= 9
  {
    Plan(accounts[1], accounts[2], accounts[3], accounts[4], accounts[5])
  }

  /** The checks before anything moves. `approves` is the authenticator on the signed payload. */
  predicate Approved(
      b: Bank, ids: Ids, accounts: seq<Key>, payerSigns: bool, n: nat, vaultOf: Key -> Key, approves: seq<byte> -> bool)
    requires 9 + 4 * n <= |accounts| && n < 256
  {
    var p := PlanOf(accounts);
    && payerSigns && accounts[6] == ids.system
    && At(b, ids, p.wallet) == Info(ids.program, WalletV1)
    && At(b, ids, p.authority).owner == ids.program && At(b, ids, p.authority).data == AuthorityV1(p.wallet, 0)
    && approves(SignedPayload(p, Sources(Entries(accounts, n))))
    && p.vault == vaultOf(p.wallet)
  }

  /** The payload loop: every fourth account from the ninth on, by index. */
  method BuildPayload(accounts: seq<Key>, n: byte) returns (payload: Option<seq<byte>>)
    requires |accounts| >= 9
    ensures payload.Some? ==> n > 0 ==> |accounts| > 9 + 4 * (n - 1)
    ensures 9 + 4 * n <= |accounts| ==> payload == Some(SignedPayload(PlanOf(accounts), Sources(Entries(accounts, n))))
  {
    var p := PlanOf(accounts);
    var keys: seq<byte> := [];
    for i := 0 to n
      invariant i > 0 ==> |accounts| > 9 + 4 * (i - 1)
      invariant 9 + 4 * i <= |accounts| ==> keys == Keys(Sources(Entries(accounts, i)))
    {
      if |accounts| <= 9 + i * 4 {
        return None;
      }
      if 9 + 4 * (i + 1) <= |accounts| {
        SourcesGrow(accounts, i);
      }
      keys := keys + accounts[9 + i * 4];
    }
    payload := Some(p.destination + p.wallet + [n] + p.refund + keys);
  }

  lemma SourcesGrow(accounts: seq<Key>, i: nat)
    requires 9 + 4 * (i + 1) <= |accounts|
    ensures Keys(Sources(Entries(accounts, i + 1))) == Keys(Sources(Entries(accounts, i))) + accounts[9 + 4 * i]
  {
    var es, fs := Entries(accounts, i + 1), Entries(accounts, i);
    assert es[..i] == fs;
    assert Sources(es)[..i] == Sources(fs);
  }

  lemma {:induction false} FailedStays(b: Bank, ids: Ids, p: Plan, fee: Fee, es: seq<Entry>, i: nat)
    requires i <= |es| && MoveTokens(b, ids, p, fee, es[..i]).None?
    ensures MoveTokens(b, ids, p, fee, es).None?
    decreases |es|
  {
    if i < |es| {
      var init := es[..|es| - 1];
      assert init[..i] == es[..i];
      FailedStays(b, ids, p, fee, init, i);
    } else {
      assert es[..i] == es;
    }
  }

  /** How a turn continues the loop, or ends it for good. */
  lemma TurnDecides(b: Bank, ids: Ids, p: Plan, fee: Fee, es: seq<Entry>, i: nat, bank: Bank)
    requires i < |es| && MoveTokens(b, ids, p, fee, es[..i]) == Some(bank)
    ensures MoveTokens(b, ids, p, fee, es[..i + 1]) == MoveToken(bank, ids, p, fee, es[i])
    ensures MoveToken(bank, ids, p, fee, es[i]).None? ==> MoveTokens(b, ids, p, fee, es).None?
  {
    assert es[..i + 1][..i] == es[..i];
    if MoveToken(bank, ids, p, fee, es[i]).None? {
      FailedStays(b, ids, p, fee, es, i + 1);
    }
  }

  /** The next four accounts, and the slice behind them. */
  method TakeFour(rest: seq<Key>, ghost accounts: seq<Key>, ghost i: nat) returns (e: Entry, next: seq<Key>)
    requires 9 + 4 * (i + 1) <= |accounts| && rest == accounts[9 + 4 * i..]
    ensures e == EntryAt(accounts, i) && next == accounts[9 + 4 * (i + 1)..]
  {
    e := Entry(rest[0], rest[1], rest[2], rest[3]);
    next := rest[4..];
  }

  /** The accounts the instruction was given, written in place; a failure is rolled back. */
  class Ledger {
    var bank: Bank

    constructor (bank: Bank)
      ensures this.bank == bank
    {
      this.bank := bank;
    }

    /** One turn of the token loop. */
    method MoveOne(ids: Ids, p: Plan, fee: Fee, e: Entry) returns (ok: bool)
      modifies this
      ensures ok <==> MoveToken(old(bank), ids, p, fee, e).Some?
      ensures bank == if ok then MoveToken(old(bank), ids, p, fee, e).value else old(bank)
    {
      var before := bank;
      if !EntryOk(bank, ids, p, e) {
        return false;
      }
      var amount := At(bank, ids, e.source).data.amount;
      if amount > 0 {
        if !CanTransfer(bank, ids, fee, e) {
          return false;
        }
        bank := Transferred(bank, ids, fee, e);
      }
      if !CanCloseToken(bank, ids, p, e.source) {
        bank := before;
        return false;
      }
      bank := Closed(bank, e.source, p.refund, Info(ids.system, NoData));
      ok := true;
    }

    /** The `i`-th turn, in terms of the whole loop. */
    method TakeTurn(
        ids: Ids, p: Plan, fee: Fee, e: Entry, ghost b: Bank, ghost es: seq<Entry>, ghost i: nat) returns (ok: bool)
      requires i < |es| && es[i] == e && MoveTokens(b, ids, p, fee, es[..i]) == Some(bank)
      modifies this
      ensures ok ==> MoveTokens(b, ids, p, fee, es[..i + 1]) == Some(bank)
      ensures !ok ==> MoveTokens(b, ids, p, fee, es).None?
    {
      TurnDecides(b, ids, p, fee, es, i, bank);
      ok := MoveOne(ids, p, fee, e);
    }

    /** The token loop, over a slice that shrinks by four; `es` are the entries the list has. */
    method SweepTokens(ids: Ids, p: Plan, fee: Fee, accounts: seq<Key>, n: nat, ghost es: seq<Entry>) returns (ok: bool)
      requires |accounts| >= 9 && |es| <= n && 9 + 4 * |es| <= |accounts|
      requires (|es| < n ==> |accounts| < 9 + 4 * (|es| + 1))
      requires forall i :: 0 <= i < |es| ==> es[i] == EntryAt(accounts, i)
      modifies this
      ensures ok <==> |es| == n && MoveTokens(old(bank), ids, p, fee, es).Some?
      ensures ok ==> bank == MoveTokens(old(bank), ids, p, fee, es).value
    {
      ghost var b := bank;
      var rest := accounts[9..];
      for i := 0 to n
        invariant i <= |es| && |rest| == |accounts| - 9 - 4 * i && rest == accounts[9 + 4 * i..]
        invariant MoveTokens(b, ids, p, fee, es[..i]) == Some(bank)
      {
        if |rest| < 4 {
          return false;
        }
        var e;
        e, rest := TakeFour(rest, accounts, i);
        ok := TakeTurn(ids, p, fee, e, b, es, i);
        if !ok {
          return;
        }
      }
      assert es[..n] == es;
      ok := true;
    }

    /** `close_program_account`. */
    method CloseAccount(ids: Ids, k: Key, refund: Key) returns (ok: bool)
      modifies this
      ensures ok <==> CloseProgramAccount(old(bank), ids, k, refund).Some?
      ensures bank == if ok then CloseProgramAccount(old(bank), ids, k, refund).value else old(bank)
    {
      var lamports := Lam(bank, k);
      if k == refund || Lam(bank, refund) + lamports > U64_MAX {
        return false;
      }
      bank := Pay(bank, k, refund, lamports);
      bank := bank.(info := bank.info[k := Info(ids.program, NoData)]);
      ok := true;
    }

    /** The SOL sweep, the check that it emptied the vault, and the two closes. */
    method Finish(ids: Ids, p: Plan) returns (ok: bool)
      modifies this
      ensures ok <==>
              SweepVault(old(bank), ids, p).Some? && CloseBoth(SweepVault(old(bank), ids, p).value, ids, p).Some?
      ensures ok ==> bank == CloseBoth(SweepVault(old(bank), ids, p).value, ids, p).value
    {
      var n := Lam(bank, p.vault);
      if n > 0 {
        if At(bank, ids, p.vault) != Info(ids.system, NoData) || Lam(bank, p.destination) + n > U64_MAX {
          return false;
        }
        if p.destination != p.vault {
          bank := Pay(bank, p.vault, p.destination, n);
        }
      }
      if Lam(bank, p.vault) != 0 {
        return false;
      }
      ok := CloseAccount(ids, p.authority, p.refund);
      if ok {
        ok := CloseAccount(ids, p.wallet, p.refund);
      }
    }

    /** `process`: refused and nothing changed, or the whole sweep of what the key approved. */
    method Process(
      ids: Ids, accounts: seq<Key>, payerSigns: bool, data: seq<byte>, vaultOf: Key -> Key,
          approves: seq<byte> -> bool, fee: Fee)
      returns (ok: bool)
      modifies this
      ensures ok <==>
              && data != [] && 9 + 4 * data[0] <= |accounts|
              && Approved(old(bank), ids, accounts, payerSigns, data[0], vaultOf, approves)
              && Sweep(old(bank), ids, PlanOf(accounts), fee, Entries(accounts, data[0])).Some?
      ensures bank == if ok then Sweep(old(bank), ids, PlanOf(accounts), fee, Entries(accounts, data[0])).value
                else old(bank)
    {
      var before := bank;
      if data == [] || |accounts| < 9 {
        return false;
      }
      var n, p := data[0], PlanOf(accounts);
      if !payerSigns || accounts[6] != ids.system || At(bank, ids, p.wallet) != Info(ids.program, WalletV1) {
        return false;
      }
      var authority := At(bank, ids, p.authority);
      if authority.owner != ids.program || authority.data != AuthorityV1(p.wallet, 0) {
        return false;
      }
      var payload := BuildPayload(accounts, n);
      if payload.None? || !approves(payload.value) || p.vault != vaultOf(p.wallet) {
        return false;
      }
      ghost var k := if 9 + 4 * n <= |accounts| then n else (|accounts| - 9) / 4;
      ok := SweepTokens(ids, p, fee, accounts, n, Entries(accounts, k));
      if ok {
        ok := Finish(ids, p);
      }
      if !ok {
        bank := before;
      }
    }
  }

  // ---------------------------------------------------------------------------
  // Where everything goes
  // ---------------------------------------------------------------------------

  /** The runtime loads every account an instruction names. */
  predicate Loaded(b: Bank, p: Plan, es: seq<Entry>) {
    && {p.wallet, p.authority, p.vault, p.destination, p.refund} <= b.lamports.Keys
    && forall i :: 0 <= i < |es| ==> es[i].source in b.lamports && es[i].dest in b.lamports
  }

  ghost predicate Conserves(b: Bank, c: Bank) {
    c.lamports.Keys == b.lamports.Keys && Sums.Sum(c.lamports) == Sums.Sum(b.lamports)
  }

  lemma PayConserves(b: Bank, from: Key, to: Key, n: nat)
    requires n <= Lam(b, from) && from != to && from in b.lamports && to in b.lamports
    ensures Conserves(b, Pay(b, from, to, n))
  {
    Sums.SumReplace(b.lamports, from, Lam(b, from) - n);
    Sums.SumReplace(b.lamports[from := Lam(b, from) - n], to, Lam(b, to) + n);
  }

  /** A token account's lamports besides the wrapped ones. */
  function Rent(b: Bank, ids: Ids, k: Key): nat {
    var d := At(b, ids, k).data;
    if d.TokenAccount? && d.native && d.amount <= Lam(b, k) then Lam(b, k) - d.amount else Lam(b, k)
  }

  /** What the transfer of an entry's whole amount does. */
  ghost predicate Shifted(b: Bank, ids: Ids, fee: Fee, e: Entry, m: Bank)
    requires At(b, ids, e.source).data.TokenAccount? && At(b, ids, e.dest).data.TokenAccount?
  {
    && Conserves(b, m) && At(m, ids, e.source).data.TokenAccount?
    && (forall k :: k != e.source && k != e.dest ==> At(m, ids, k) == At(b, ids, k))
    && (forall k :: k != e.source ==> Lam(m, k) >= Lam(b, k))
    && (forall k :: k != e.source && (k != e.dest || !At(b, ids, e.source).data.native) ==> Lam(m, k) == Lam(b, k))
    && (e.source != e.dest ==>
        At(m, ids, e.dest) == Credited(b, ids, fee, e) && Lam(m, e.source) == Rent(b, ids, e.source))
  }

  /** The destination account with the source's amount, less what the mint withholds. */
  ghost function Credited(b: Bank, ids: Ids, fee: Fee, e: Entry): Info
    requires At(b, ids, e.source).data.TokenAccount? && At(b, ids, e.dest).data.TokenAccount?
  {
    var d := At(b, ids, e.dest);
    d.(data := d.data.(amount := Min(U64_MAX, d.data.amount + Credit(fee, At(b, ids, e.source).data))))
  }

  /** What closing the source does. */
  ghost predicate Shut(m: Bank, ids: Ids, k0: Key, refund: Key, c: Bank) {
    && Conserves(m, c) && Lam(c, k0) == 0 && At(c, ids, k0) == Info(ids.system, NoData)
    && (forall k :: k != k0 ==> At(c, ids, k) == At(m, ids, k) && Lam(c, k) >= Lam(m, k))
    && (forall k :: k != k0 && k != refund ==> Lam(c, k) == Lam(m, k))
    && Lam(c, refund) == Lam(m, refund) + Lam(m, k0)
  }

  /** What one turn of the token loop does. */
  ghost predicate Turn(b: Bank, ids: Ids, p: Plan, fee: Fee, e: Entry, c: Bank) {
    && Conserves(b, c)
    && At(b, ids, e.source).data.TokenAccount? && At(b, ids, e.source).data.holder == p.vault
    && At(b, ids, e.dest).data.TokenAccount? && At(b, ids, e.dest).data.holder == p.destination
    && e.source != p.refund && Lam(c, e.source) == 0 && At(c, ids, e.source) == Info(ids.system, NoData)
    && (forall k :: k != e.source && k != e.dest ==> At(c, ids, k) == At(b, ids, k))
    && (forall k :: k != e.source ==> Lam(c, k) >= Lam(b, k))
    && (forall k :: k != e.source && k != p.refund && (k != e.dest || !At(b, ids, e.source).data.native) ==>
          Lam(c, k) == Lam(b, k))
    && (e.source != e.dest ==> At(c, ids, e.dest) == Credited(b, ids, fee, e))
    && (e.source != e.dest && p.refund != e.dest ==>
          Lam(c, p.refund) == Lam(b, p.refund) + Rent(b, ids, e.source))
  }

  lemma TransferShifts(b: Bank, ids: Ids, fee: Fee, e: Entry)
    requires At(b, ids, e.source).data.TokenAccount?
    requires At(b, ids, e.dest).data.TokenAccount? && CanTransfer(b, ids, fee, e)
    requires e.source in b.lamports && e.dest in b.lamports
    ensures Shifted(b, ids, fee, e, Transferred(b, ids, fee, e))
  {
    var s := At(b, ids, e.source).data;
    if e.source != e.dest && s.native {
      PayConserves(b, e.source, e.dest, s.amount);
    }
  }

  lemma CloseShuts(m: Bank, ids: Ids, k: Key, refund: Key)
    requires k != refund && k in m.lamports && refund in m.lamports
    ensures Shut(m, ids, k, refund, Closed(m, k, refund, Info(ids.system, NoData)))
  {
    PayConserves(m, k, refund, Lam(m, k));
  }

  lemma TurnCombines(b: Bank, ids: Ids, p: Plan, fee: Fee, e: Entry, m: Bank, c: Bank)
    requires EntryOk(b, ids, p, e) && e.source != p.refund
    requires Shifted(b, ids, fee, e, m) && Shut(m, ids, e.source, p.refund, c)
    ensures Turn(b, ids, p, fee, e, c)
  {
  }

  lemma TurnHolds(b: Bank, ids: Ids, p: Plan, fee: Fee, e: Entry)
    requires MoveToken(b, ids, p, fee, e).Some?
    requires e.source in b.lamports && e.dest in b.lamports && p.refund in b.lamports
    ensures Turn(b, ids, p, fee, e, MoveToken(b, ids, p, fee, e).value)
  {
    var m := b;
    if At(b, ids, e.source).data.amount > 0 {
      TransferShifts(b, ids, fee, e);
      m := Transferred(b, ids, fee, e);
    }
    CloseShuts(m, ids, e.source, p.refund);
    TurnCombines(b, ids, p, fee, e, m, MoveToken(b, ids, p, fee, e).value);
  }

  ghost function SourceSet(es: seq<Entry>): set<Key> {
    set i | 0 <= i < |es| :: es[i].source
  }

  ghost function DestSet(es: seq<Entry>): set<Key> {
    set i | 0 <= i < |es| :: es[i].dest
  }

  /** What the entries bring to a token account, read off the accounts as they were. */
  ghost function Brought(b: Bank, ids: Ids, fee: Fee, es: seq<Entry>, d: Key): nat {
    if es == [] then 0
    else
      var e := es[|es| - 1];
      Brought(b, ids, fee, es[..|es| - 1], d)
      + if e.dest == d && At(b, ids, e.source).data.TokenAccount? then Credit(fee, At(b, ids, e.source).data) else 0
  }

  function AmountAt(b: Bank, ids: Ids, k: Key): nat {
    if At(b, ids, k).data.TokenAccount? then At(b, ids, k).data.amount else 0
  }

  /** What the token loop does: lamports. */
  ghost predicate Emptied(b: Bank, ids: Ids, p: Plan, es: seq<Entry>, c: Bank) {
    && Conserves(b, c) && p.refund !in SourceSet(es)
    && (forall k :: k in SourceSet(es) ==> Lam(c, k) == 0 && At(c, ids, k) == Info(ids.system, NoData))
    && (forall k :: k !in SourceSet(es) ==> Lam(c, k) >= Lam(b, k))
    && (forall k :: k !in SourceSet(es) && k !in DestSet(es) ==> At(c, ids, k) == At(b, ids, k))
    && (forall k :: k !in SourceSet(es) && k !in DestSet(es) && k != p.refund ==> Lam(c, k) == Lam(b, k))
  }

  /** What the token loop does: tokens. */
  ghost predicate Delivered(b: Bank, ids: Ids, p: Plan, fee: Fee, es: seq<Entry>, c: Bank) {
    && SourceSet(es) !! DestSet(es)
    && (forall k :: k in SourceSet(es) ==> At(b, ids, k).data.TokenAccount? && At(b, ids, k).data.holder == p.vault)
    && (forall k :: k in DestSet(es) ==>
          && At(c, ids, k).data.TokenAccount? && At(c, ids, k).data.holder == p.destination
          && AmountAt(c, ids, k) == AmountAt(b, ids, k) + Brought(b, ids, fee, es, k))
  }

  lemma SetsGrow(es: seq<Entry>)
    requires es != []
    ensures var n := |es| - 1;
            SourceSet(es) == SourceSet(es[..n]) + {es[n].source} && DestSet(es) == DestSet(es[..n]) + {es[n].dest}
  {
    var n := |es| - 1;
    assert forall i :: 0 <= i < n ==> es[..n][i] == es[i];
    forall k
      ensures k in SourceSet(es) <==> k in SourceSet(es[..n]) + {es[n].source}
      ensures k in DestSet(es) <==> k in DestSet(es[..n]) + {es[n].dest}
    {
      if k in SourceSet(es[..n]) {
        var i :| 0 <= i < n && es[..n][i].source == k;
        assert es[i].source == k;
      }
      if k in DestSet(es[..n]) {
        var i :| 0 <= i < n && es[..n][i].dest == k;
        assert es[i].dest == k;
      }
      if k in SourceSet(es) {
        var i :| 0 <= i < |es| && es[i].source == k;
        assert i < n ==> es[..n][i].source == k;
      }
      if k in DestSet(es) {
        var i :| 0 <= i < |es| && es[i].dest == k;
        assert i < n ==> es[..n][i].dest == k;
      }
    }
  }

  lemma EmptiedTurn(b: Bank, ids: Ids, p: Plan, fee: Fee, es: seq<Entry>, m: Bank, c: Bank)
    requires es != [] && Emptied(b, ids, p, es[..|es| - 1], m) && Turn(m, ids, p, fee, es[|es| - 1], c)
    ensures Emptied(b, ids, p, es, c)
  {
    SetsGrow(es);
    var e := es[|es| - 1];
    assert e.source !in SourceSet(es[..|es| - 1]) && e.dest !in SourceSet(es[..|es| - 1]);
  }

  lemma {:induction false} TokensEmptied(b: Bank, ids: Ids, p: Plan, fee: Fee, es: seq<Entry>)
    requires MoveTokens(b, ids, p, fee, es).Some? && Loaded(b, p, es)
    ensures Emptied(b, ids, p, es, MoveTokens(b, ids, p, fee, es).value)
    decreases |es|
  {
    if es != [] {
      var init, e := es[..|es| - 1], es[|es| - 1];
      TokensEmptied(b, ids, p, fee, init);
      var m := MoveTokens(b, ids, p, fee, init).value;
      TurnHolds(m, ids, p, fee, e);
      EmptiedTurn(b, ids, p, fee, es, m, MoveToken(m, ids, p, fee, e).value);
    }
  }

  lemma {:induction false} BroughtElsewhere(b: Bank, ids: Ids, fee: Fee, es: seq<Entry>, d: Key)
    requires d !in DestSet(es)
    ensures Brought(b, ids, fee, es, d) == 0
    decreases |es|
  {
    if es != [] {
      SetsGrow(es);
      BroughtElsewhere(b, ids, fee, es[..|es| - 1], d);
    }
  }

  /** A credit the token program accepted fits in 64 bits. */
  lemma CreditFits(b: Bank, ids: Ids, p: Plan, fee: Fee, e: Entry)
    requires MoveToken(b, ids, p, fee, e).Some? && e.source != e.dest
    ensures At(b, ids, e.dest).data.TokenAccount? && At(b, ids, e.source).data.TokenAccount?
    ensures At(b, ids, e.dest).data.amount + Credit(fee, At(b, ids, e.source).data) <= U64_MAX
  {
  }

  /** An entry's accounts are none of the sources before it, and its source none of the destinations. */
  lemma EntryApart(b: Bank, ids: Ids, p: Plan, fee: Fee, init: seq<Entry>, e: Entry, m: Bank, c: Bank)
    requires p.destination != p.vault && Emptied(b, ids, p, init, m)
    requires Delivered(b, ids, p, fee, init, m) && Turn(m, ids, p, fee, e, c)
    ensures e.source !in DestSet(init) && e.source !in SourceSet(init)
    ensures e.dest !in SourceSet(init) && e.source != e.dest
    ensures At(m, ids, e.source) == At(b, ids, e.source)
  {
  }

  ghost predicate Fits(m: Bank, ids: Ids, fee: Fee, e: Entry) {
    && At(m, ids, e.dest).data.TokenAccount? && At(m, ids, e.source).data.TokenAccount?
    && At(m, ids, e.dest).data.amount + Credit(fee, At(m, ids, e.source).data) <= U64_MAX
  }

  lemma BroughtBy(b: Bank, ids: Ids, fee: Fee, es: seq<Entry>, k: Key)
    requires es != [] && At(b, ids, es[|es| - 1].source).data.TokenAccount?
    ensures var e := es[|es| - 1];
            Brought(b, ids, fee, es, k) ==
            Brought(b, ids, fee, es[..|es| - 1], k) + if e.dest == k then Credit(fee, At(b, ids, e.source).data) else 0
  {
  }

  lemma DeliveredAt(b: Bank, ids: Ids, p: Plan, fee: Fee, es: seq<Entry>, m: Bank, c: Bank, k: Key)
    requires p.destination != p.vault && es != []
    requires Emptied(b, ids, p, es[..|es| - 1], m) && Delivered(b, ids, p, fee, es[..|es| - 1], m)
    requires Turn(m, ids, p, fee, es[|es| - 1], c) && Fits(m, ids, fee, es[|es| - 1])
    requires k in DestSet(es[..|es| - 1]) || k == es[|es| - 1].dest
    ensures At(c, ids, k).data.TokenAccount? && At(c, ids, k).data.holder == p.destination
    ensures AmountAt(c, ids, k) == AmountAt(b, ids, k) + Brought(b, ids, fee, es, k)
  {
    var init, e := es[..|es| - 1], es[|es| - 1];
    EntryApart(b, ids, p, fee, init, e, m, c);
    BroughtBy(b, ids, fee, es, k);
    if k !in DestSet(init) {
      BroughtElsewhere(b, ids, fee, init, k);
      assert At(m, ids, k) == At(b, ids, k);
    }
  }

  lemma DeliveredTurn(b: Bank, ids: Ids, p: Plan, fee: Fee, es: seq<Entry>, m: Bank, c: Bank)
    requires p.destination != p.vault && es != []
    requires Emptied(b, ids, p, es[..|es| - 1], m) && Delivered(b, ids, p, fee, es[..|es| - 1], m)
    requires Turn(m, ids, p, fee, es[|es| - 1], c) && Fits(m, ids, fee, es[|es| - 1])
    ensures Delivered(b, ids, p, fee, es, c)
  {
    SetsGrow(es);
    EntryApart(b, ids, p, fee, es[..|es| - 1], es[|es| - 1], m, c);
    forall k | k in DestSet(es)
      ensures At(c, ids, k).data.TokenAccount? && At(c, ids, k).data.holder == p.destination
      ensures AmountAt(c, ids, k) == AmountAt(b, ids, k) + Brought(b, ids, fee, es, k)
    {
      DeliveredAt(b, ids, p, fee, es, m, c, k);
    }
  }

  lemma {:induction false} TokensDelivered(b: Bank, ids: Ids, p: Plan, fee: Fee, es: seq<Entry>)
    requires MoveTokens(b, ids, p, fee, es).Some? && Loaded(b, p, es) && p.destination != p.vault
    ensures Delivered(b, ids, p, fee, es, MoveTokens(b, ids, p, fee, es).value)
    decreases |es|
  {
    if es != [] {
      var init, e := es[..|es| - 1], es[|es| - 1];
      TokensDelivered(b, ids, p, fee, init);
      TokensEmptied(b, ids, p, fee, init);
      var m := MoveTokens(b, ids, p, fee, init).value;
      TurnHolds(m, ids, p, fee, e);
      EntryApart(b, ids, p, fee, init, e, m, MoveToken(m, ids, p, fee, e).value);
      CreditFits(m, ids, p, fee, e);
      DeliveredTurn(b, ids, p, fee, es, m, MoveToken(m, ids, p, fee, e).value);
    }
  }

  // ---------------------------------------------------------------------------
  // The whole migration
  // ---------------------------------------------------------------------------

  /**
   The accounts are what their roles say: v1 records apart from each other, a vault that holds no
   token account's data.
   */
  predicate InRole(b: Bank, ids: Ids, p: Plan) {
    && At(b, ids, p.wallet).data == WalletV1 && At(b, ids, p.authority).data.AuthorityV1?
    && p.vault != p.wallet && p.vault != p.authority && !At(b, ids, p.vault).data.TokenAccount?
  }

  ghost function Gone(p: Plan, es: seq<Entry>): set<Key> {
    SourceSet(es) + {p.vault, p.wallet, p.authority}
  }

  ghost function Receivers(p: Plan, es: seq<Entry>): set<Key> {
    DestSet(es) + {p.destination, p.refund}
  }

  lemma {:induction false} DestsAreTokens(b: Bank, ids: Ids, p: Plan, fee: Fee, es: seq<Entry>, k: Key)
    requires MoveTokens(b, ids, p, fee, es).Some? && Loaded(b, p, es) && k in SourceSet(es) + DestSet(es)
    ensures At(b, ids, k).data.TokenAccount?
    decreases |es|
  {
    SetsGrow(es);
    var init, e := es[..|es| - 1], es[|es| - 1];
    if k in SourceSet(init) + DestSet(init) {
      DestsAreTokens(b, ids, p, fee, init, k);
    } else {
      TokensEmptied(b, ids, p, fee, init);
      assert At(MoveTokens(b, ids, p, fee, init).value, ids, k) == At(b, ids, k);
    }
  }

  /** What the two closes do. */
  ghost predicate BothClosed(b: Bank, ids: Ids, p: Plan, c: Bank) {
    && Conserves(b, c) && p.refund != p.wallet && p.refund != p.authority
    && Lam(c, p.wallet) == 0 && Lam(c, p.authority) == 0
    && Lam(c, p.refund) == Lam(b, p.refund) + Lam(b, p.authority) + Lam(b, p.wallet)
    && (forall k :: k != p.wallet && k != p.authority && k != p.refund ==> Lam(c, k) == Lam(b, k))
    && (forall k :: k != p.wallet && k != p.authority ==> At(c, ids, k) == At(b, ids, k))
    && At(c, ids, p.wallet).data == NoData && At(c, ids, p.authority).data == NoData
  }

  lemma CloseBothDoes(b: Bank, ids: Ids, p: Plan)
    requires CloseBoth(b, ids, p).Some? && p.wallet != p.authority
    requires {p.wallet, p.authority, p.refund} <= b.lamports.Keys
    ensures BothClosed(b, ids, p, CloseBoth(b, ids, p).value)
  {
    PayConserves(b, p.authority, p.refund, Lam(b, p.authority));
    var m := CloseProgramAccount(b, ids, p.authority, p.refund).value;
    PayConserves(m, p.wallet, p.refund, Lam(m, p.wallet));
  }

  /** What the SOL sweep does. */
  ghost predicate VaultSwept(b: Bank, p: Plan, c: Bank) {
    && Conserves(b, c) && c.info == b.info && Lam(c, p.vault) == 0
    && (p.destination != p.vault ==> Lam(c, p.destination) == Lam(b, p.destination) + Lam(b, p.vault))
    && (forall k :: k != p.vault && k != p.destination ==> Lam(c, k) == Lam(b, k))
  }

  lemma SweepVaultDoes(b: Bank, ids: Ids, p: Plan)
    requires SweepVault(b, ids, p).Some? && {p.vault, p.destination} <= b.lamports.Keys
    ensures VaultSwept(b, p, SweepVault(b, ids, p).value)
  {
    if Lam(b, p.vault) > 0 {
      PayConserves(b, p.vault, p.destination, Lam(b, p.vault));
    }
  }

  /** The three phases of an accepted sweep. */
  lemma Phases(b: Bank, ids: Ids, p: Plan, fee: Fee, es: seq<Entry>) returns (m: Bank, v: Bank)
    requires Sweep(b, ids, p, fee, es).Some? && Loaded(b, p, es) && InRole(b, ids, p)
    ensures MoveTokens(b, ids, p, fee, es) == Some(m)
    ensures Emptied(b, ids, p, es, m) && VaultSwept(m, p, v) && BothClosed(v, ids, p, Sweep(b, ids, p, fee, es).value)
    ensures {p.vault, p.wallet, p.authority} !! SourceSet(es) + DestSet(es)
  {
    TokensEmptied(b, ids, p, fee, es);
    RolesApart(b, ids, p, fee, es);
    m := MoveTokens(b, ids, p, fee, es).value;
    SweepVaultDoes(m, ids, p);
    v := SweepVault(m, ids, p).value;
    CloseBothDoes(v, ids, p);
  }

  /** What an accepted migration leaves. */
  ghost predicate Migrated(b: Bank, ids: Ids, p: Plan, es: seq<Entry>, c: Bank) {
    && Conserves(b, c) && p.refund !in SourceSet(es) + {p.wallet, p.authority}
    && Lam(c, p.wallet) == 0 && Lam(c, p.authority) == 0
    && At(c, ids, p.wallet).data == NoData && At(c, ids, p.authority).data == NoData
    && (forall k :: k in SourceSet(es) ==> At(c, ids, k) == Info(ids.system, NoData) && (k != p.destination ==>
          Lam(c, k) == 0))
    && (forall k :: k !in Gone(p, es) && k !in Receivers(p, es) ==> Lam(c, k) == Lam(b, k))
  }

  lemma PhasesLeave(b: Bank, ids: Ids, p: Plan, es: seq<Entry>, m: Bank, v: Bank, c: Bank)
    requires Emptied(b, ids, p, es, m) && VaultSwept(m, p, v) && BothClosed(v, ids, p, c)
    requires {p.vault, p.wallet, p.authority} !! SourceSet(es) + DestSet(es)
    ensures Migrated(b, ids, p, es, c)
  {
    assert At(c, ids, p.wallet).data == NoData;
    forall k | k in SourceSet(es)
      ensures At(c, ids, k) == Info(ids.system, NoData) && (k != p.destination ==> Lam(c, k) == 0)
    {
      assert k !in {p.vault, p.wallet, p.authority} && k != p.refund;
      assert At(v, ids, k) == At(m, ids, k);
    }
  }

  lemma MigrationLeaves(b: Bank, ids: Ids, p: Plan, fee: Fee, es: seq<Entry>)
    requires Sweep(b, ids, p, fee, es).Some? && Loaded(b, p, es) && InRole(b, ids, p)
    ensures Migrated(b, ids, p, es, Sweep(b, ids, p, fee, es).value)
  {
    var m, v := Phases(b, ids, p, fee, es);
    PhasesLeave(b, ids, p, es, m, v, Sweep(b, ids, p, fee, es).value);
  }

  /** A vault, a wallet and an authority are no token accounts. */
  lemma RolesApart(b: Bank, ids: Ids, p: Plan, fee: Fee, es: seq<Entry>)
    requires MoveTokens(b, ids, p, fee, es).Some? && Loaded(b, p, es) && InRole(b, ids, p)
    ensures {p.vault, p.wallet, p.authority} !! SourceSet(es) + DestSet(es)
  {
    forall k | k in SourceSet(es) + DestSet(es)
      ensures k !in {p.vault, p.wallet, p.authority}
    {
      DestsAreTokens(b, ids, p, fee, es, k);
    }
  }

  /** The vault ends empty exactly when the rent of the closed records is not refunded into it. */
  lemma VaultEmptyIff(b: Bank, ids: Ids, p: Plan, fee: Fee, es: seq<Entry>)
    requires Sweep(b, ids, p, fee, es).Some? && Loaded(b, p, es) && InRole(b, ids, p) && Lam(b, p.wallet) > 0
    ensures Lam(Sweep(b, ids, p, fee, es).value, p.vault) == 0 <==> p.refund != p.vault
  {
    var m, v := Phases(b, ids, p, fee, es);
  }

  /** And the other case does happen: nothing refuses a refund into the vault. */
  lemma RefundIntoVaultIsStranded(b: Bank, ids: Ids, p: Plan, fee: Fee)
    requires Loaded(b, p, []) && InRole(b, ids, p) && p.refund == p.vault
    requires p.destination !in {p.vault, p.wallet, p.authority}
    requires At(b, ids, p.vault) == Info(ids.system, NoData)
    requires Lam(b, p.destination) + Lam(b, p.vault) <= U64_MAX && Lam(b, p.wallet) + Lam(b, p.authority) <= U64_MAX
    ensures Sweep(b, ids, p, fee, []).Some?
    ensures Lam(Sweep(b, ids, p, fee, []).value, p.vault) == Lam(b, p.wallet) + Lam(b, p.authority)
  {
    var v := SweepVault(b, ids, p).value;
    SweepVaultDoes(b, ids, p);
    CloseBothDoes(v, ids, p);
  }

  lemma ArrivalStays(ids: Ids, p: Plan, m: Bank, v: Bank, c: Bank, d: Key)
    requires VaultSwept(m, p, v) && BothClosed(v, ids, p, c) && d !in {p.wallet, p.authority}
    ensures At(c, ids, d) == At(m, ids, d)
  {
    assert At(v, ids, d) == At(m, ids, d);
  }

  /** Every token the sources held, less what the mints withhold, is with the destination's accounts. */
  lemma TokensArrive(b: Bank, ids: Ids, p: Plan, fee: Fee, es: seq<Entry>, d: Key)
    requires Sweep(b, ids, p, fee, es).Some? && Loaded(b, p, es)
    requires InRole(b, ids, p) && p.destination != p.vault && d in DestSet(es)
    ensures var c := Sweep(b, ids, p, fee, es).value;
            && At(c, ids, d).data.TokenAccount? && At(c, ids, d).data.holder == p.destination
            && AmountAt(c, ids, d) == AmountAt(b, ids, d) + Brought(b, ids, fee, es, d)
  {
    var m, v := Phases(b, ids, p, fee, es);
    TokensDelivered(b, ids, p, fee, es);
    ArrivalStays(ids, p, m, v, Sweep(b, ids, p, fee, es).value, d);
  }

  lemma ZeroSum(m: map<Key, nat>, s: set<Key>)
    requires forall k :: k in m && k in s ==> m[k] == 0
    ensures Sums.Sum(Sums.Within(m, s)) == 0
    decreases |m|
  {
    if m != map[] {
      var p := Sums.Pick(m);
      var n := m - {p};
      assert |n.Keys| < |m.Keys| by {
        assert n.Keys == m.Keys - {p};
      }
      ZeroSum(n, s);
      if p in s {
        Sums.SumTake(Sums.Within(m, s), p);
        assert Sums.Within(m, s) - {p} == Sums.Within(n, s);
      } else {
        assert Sums.Within(m, s) == Sums.Within(n, s);
      }
    } else {
      assert Sums.Within(m, s) == map[];
    }
  }

  /** If all that was in `gone` is gone and only `got` changed besides, `got` has it. */
  lemma LeftIsReceived(a: map<Key, nat>, c: map<Key, nat>, gone: set<Key>, got: set<Key>)
    requires a.Keys == c.Keys && Sums.Sum(a) == Sums.Sum(c) && gone !! got
    requires forall k :: k in c && k in gone ==> c[k] == 0
    requires forall k :: k in a && k !in gone && k !in got ==> c[k] == a[k]
    ensures Sums.Sum(Sums.Within(c, got)) == Sums.Sum(Sums.Within(a, got)) + Sums.Sum(Sums.Within(a, gone))
  {
    Sums.SumSplit(a, gone);
    Sums.SumSplit(c, gone);
    ZeroSum(c, gone);
    var x, y := Sums.Outside(a, gone), Sums.Outside(c, gone);
    assert x.Keys == y.Keys;
    Sums.SumDifference(x, y, got);
    assert Sums.Within(x, got) == Sums.Within(a, got);
    assert Sums.Within(y, got) == Sums.Within(c, got);
  }

  /** What a migration leaves without lamports: all it sweeps but an account it also pays at the end. */
  ghost function Left(p: Plan, es: seq<Entry>): set<Key> {
    Gone(p, es) - {p.refund} - (SourceSet(es) * {p.destination})
  }

  /** Who has them then. A destination that is one of the closed records passes them on to the refund. */
  ghost function Holders(p: Plan, es: seq<Entry>): set<Key> {
    Receivers(p, es) - Left(p, es)
  }

  lemma LeftIsEmpty(b: Bank, ids: Ids, p: Plan, es: seq<Entry>, m: Bank, v: Bank, c: Bank, k: Key)
    requires Emptied(b, ids, p, es, m) && VaultSwept(m, p, v) && BothClosed(v, ids, p, c)
    requires {p.vault, p.wallet, p.authority} !! SourceSet(es) + DestSet(es) && k in Left(p, es)
    ensures Lam(c, k) == 0
  {
    if k in SourceSet(es) {
      assert k !in {p.vault, p.wallet, p.authority} && k != p.destination;
    }
  }

  lemma SweptLeftEmpty(b: Bank, ids: Ids, p: Plan, fee: Fee, es: seq<Entry>)
    requires Sweep(b, ids, p, fee, es).Some? && Loaded(b, p, es) && InRole(b, ids, p)
    ensures forall k :: k in Left(p, es) ==> Lam(Sweep(b, ids, p, fee, es).value, k) == 0
  {
    var m, v := Phases(b, ids, p, fee, es);
    forall k | k in Left(p, es)
      ensures Lam(Sweep(b, ids, p, fee, es).value, k) == 0
    {
      LeftIsEmpty(b, ids, p, es, m, v, Sweep(b, ids, p, fee, es).value, k);
    }
  }

  lemma HoldersGain(b: Bank, ids: Ids, p: Plan, es: seq<Entry>, c: Bank)
    requires Migrated(b, ids, p, es, c) && forall k :: k in Left(p, es) ==> Lam(c, k) == 0
    ensures Sums.Sum(Sums.Within(c.lamports, Holders(p, es)))
         == Sums.Sum(Sums.Within(b.lamports, Holders(p, es))) + Sums.Sum(Sums.Within(b.lamports, Left(p, es)))
  {
    var left, got := Left(p, es), Holders(p, es);
    forall k | k in b.lamports && k !in left && k !in got
      ensures c.lamports[k] == b.lamports[k]
    {
      assert k !in Gone(p, es) && k !in Receivers(p, es);
      assert Lam(c, k) == Lam(b, k);
    }
    assert forall k :: k in c.lamports && k in left ==> c.lamports[k] == Lam(c, k);
    LeftIsReceived(b.lamports, c.lamports, left, got);
  }

  /**
   Conservation, whoever the destination and the refund are: what was swept and is not paid at
   the end holds nothing, and every lamport of it is now with the destination, the refund or,
   wrapped, a destination token account. Swept are the vault, the wallet, the authority and every
   source; all of them, when the refund is not the vault and the destination is no source.
   */
  lemma MigrationConserves(b: Bank, ids: Ids, p: Plan, fee: Fee, es: seq<Entry>)
    requires Sweep(b, ids, p, fee, es).Some? && Loaded(b, p, es) && InRole(b, ids, p)
    ensures var c, left, got := Sweep(b, ids, p, fee, es).value, Left(p, es), Holders(p, es);
            && p.refund in got && (forall k :: k in left ==> Lam(c, k) == 0)
            && Sums.Sum(Sums.Within(c.lamports, got))
               == Sums.Sum(Sums.Within(b.lamports, got)) + Sums.Sum(Sums.Within(b.lamports, left))
    ensures p.refund != p.vault && p.destination !in SourceSet(es) ==> Left(p, es) == Gone(p, es)
  {
    MigrationLeaves(b, ids, p, fee, es);
    SweptLeftEmpty(b, ids, p, fee, es);
    HoldersGain(b, ids, p, es, Sweep(b, ids, p, fee, es).value);
  }

  // ---------------------------------------------------------------------------
  // A destination that is itself a swept source
  // ---------------------------------------------------------------------------

  /** The lamports each close of a source pays the refund. */
  function Rents(b: Bank, ids: Ids, es: seq<Entry>): nat {
    if es == [] then 0 else Rents(b, ids, es[..|es| - 1]) + Rent(b, ids, es[|es| - 1].source)
  }

  lemma VaultGains(b: Bank, ids: Ids, p: Plan, fee: Fee, init: seq<Entry>, e: Entry, m: Bank, c: Bank)
    requires p.destination != p.vault && Emptied(b, ids, p, init, m)
    requires Delivered(b, ids, p, fee, init, m) && Turn(m, ids, p, fee, e, c)
    requires e.dest != p.vault && e.source != p.vault
    ensures Lam(c, p.vault) == Lam(m, p.vault) + if p.refund == p.vault then Rent(b, ids, e.source) else 0
  {
    EntryApart(b, ids, p, fee, init, e, m, c);
    if p.refund == p.vault {
      assert Lam(m, e.source) == Lam(b, e.source);
    }
  }

  /** What the vault holds when its SOL is swept. */
  lemma {:induction false} VaultAfterTokens(b: Bank, ids: Ids, p: Plan, fee: Fee, es: seq<Entry>)
    requires MoveTokens(b, ids, p, fee, es).Some? && Loaded(b, p, es) && InRole(b, ids, p) && p.destination != p.vault
    ensures Lam(MoveTokens(b, ids, p, fee, es).value, p.vault)
         == Lam(b, p.vault) + if p.refund == p.vault then Rents(b, ids, es) else 0
    decreases |es|
  {
    if es != [] {
      var init, e := es[..|es| - 1], es[|es| - 1];
      VaultAfterTokens(b, ids, p, fee, init);
      TokensDelivered(b, ids, p, fee, init);
      TokensEmptied(b, ids, p, fee, init);
      RolesApart(b, ids, p, fee, es);
      SetsGrow(es);
      var m := MoveTokens(b, ids, p, fee, init).value;
      TurnHolds(m, ids, p, fee, e);
      VaultGains(b, ids, p, fee, init, e, m, MoveToken(m, ids, p, fee, e).value);
    }
  }

  /**
   Nothing refuses a destination that is itself a source. It is closed, and then paid what the
   vault had left: so the sources end without lamports exactly when the destination is none of
   them, or the vault had nothing and no rent was refunded into it.
   */
  lemma SourcesEmptyIff(b: Bank, ids: Ids, p: Plan, fee: Fee, es: seq<Entry>)
    requires Sweep(b, ids, p, fee, es).Some? && Loaded(b, p, es) && InRole(b, ids, p)
    ensures (forall k :: k in SourceSet(es) ==> Lam(Sweep(b, ids, p, fee, es).value, k) == 0) <==>
            || p.destination !in SourceSet(es)
            || (Lam(b, p.vault) == 0 && (p.refund == p.vault ==> Rents(b, ids, es) == 0))
  {
    MigrationLeaves(b, ids, p, fee, es);
    var m, v := Phases(b, ids, p, fee, es);
    if p.destination in SourceSet(es) {
      assert p.destination != p.vault;
      VaultAfterTokens(b, ids, p, fee, es);
      assert Lam(Sweep(b, ids, p, fee, es).value, p.destination) == Lam(m, p.vault);
    }
  }

  /** After the token loop nothing stands in the way of the rest. */
  lemma RestSucceeds(m: Bank, ids: Ids, p: Plan)
    requires {p.vault, p.wallet, p.authority, p.destination, p.refund} <= m.lamports.Keys
    requires p.vault != p.wallet && p.vault != p.authority && p.wallet != p.authority
    requires p.refund !in {p.vault, p.wallet, p.authority, p.destination}
    requires p.destination !in {p.vault, p.wallet, p.authority} && At(m, ids, p.vault) == Info(ids.system, NoData)
    requires Lam(m, p.destination) + Lam(m, p.vault) <= U64_MAX
    requires Lam(m, p.refund) + Lam(m, p.wallet) + Lam(m, p.authority) <= U64_MAX
    ensures SweepVault(m, ids, p).Some? && CloseBoth(SweepVault(m, ids, p).value, ids, p).Some?
    ensures Lam(CloseBoth(SweepVault(m, ids, p).value, ids, p).value, p.destination)
         == Lam(m, p.destination) + Lam(m, p.vault)
  {
    SweepVaultDoes(m, ids, p);
    CloseBothDoes(SweepVault(m, ids, p).value, ids, p);
  }

  lemma OneEntry(b: Bank, ids: Ids, p: Plan, fee: Fee, e: Entry)
    requires Loaded(b, p, [e]) && InRole(b, ids, p)
    ensures MoveTokens(b, ids, p, fee, [e]) == MoveToken(b, ids, p, fee, e)
    ensures MoveToken(b, ids, p, fee, e).Some? ==>
              e.source !in {p.vault, p.wallet, p.authority} && e.dest !in {p.vault, p.wallet, p.authority}
  {
    var es := [e];
    assert es[..0] == [] && MoveTokens(b, ids, p, fee, es[..0]) == Some(b);
    assert MoveTokens(b, ids, p, fee, es) == MoveToken(b, ids, p, fee, es[0]);
    if MoveToken(b, ids, p, fee, e).Some? {
      RolesApart(b, ids, p, fee, es);
      assert es[0].source in SourceSet(es) && es[0].dest in DestSet(es);
    }
  }

  /** And it does happen: one source, named as the destination, is closed and then paid the vault's SOL. */
  lemma ClosedSourceIsPaid(b: Bank, ids: Ids, p: Plan, fee: Fee, e: Entry)
    requires Loaded(b, p, [e]) && InRole(b, ids, p) && MoveToken(b, ids, p, fee, e).Some? && p.destination == e.source
    requires p.refund !in {p.vault, p.wallet, p.authority} && At(b, ids, p.vault) == Info(ids.system, NoData)
    requires Lam(b, p.vault) <= U64_MAX
    requires Lam(MoveToken(b, ids, p, fee, e).value, p.refund) + Lam(b, p.wallet) + Lam(b, p.authority) <= U64_MAX
    ensures Sweep(b, ids, p, fee, [e]).Some?
    ensures Lam(Sweep(b, ids, p, fee, [e]).value, e.source) == Lam(b, p.vault)
  {
    assert [e][0] == e;
    OneEntry(b, ids, p, fee, e);
    TurnHolds(b, ids, p, fee, e);
    RestSucceeds(MoveToken(b, ids, p, fee, e).value, ids, p);
  }

  // ---------------------------------------------------------------------------
  // When it goes through
  // ---------------------------------------------------------------------------

  /** An entry as the SDK builds it: a thawed account of the vault, one of the destination for the same mint. */
  ghost predicate Ready(b: Bank, ids: Ids, p: Plan, e: Entry) {
    var s, d := At(b, ids, e.source), At(b, ids, e.dest);
    && (e.program == ids.token || e.program == ids.token2022)
    && s.owner == e.program && d.owner == e.program && At(b, ids, e.mint) == Info(e.program, MintAccount)
    && s.data.TokenAccount? && s.data.mint == e.mint && s.data.holder == p.vault && !s.data.frozen
    && d.data.TokenAccount? && d.data.mint == e.mint && d.data.holder == p.destination && !d.data.frozen
    && s.data.native == d.data.native && (s.data.native ==> s.data.amount <= Lam(b, e.source))
    && s.data.closer in {None, Some(p.vault)} && e.source != p.refund
  }

  /** Entries that do not get in each other's way, and destinations with room for what they bring. */
  ghost predicate ReadyAll(b: Bank, ids: Ids, p: Plan, fee: Fee, es: seq<Entry>) {
    && (forall i :: 0 <= i < |es| ==> Ready(b, ids, p, es[i]))
    && (forall i, j :: 0 <= i < j < |es| ==> es[i].source != es[j].source)
    && (forall i :: 0 <= i < |es| ==> AmountAt(b, ids, es[i].dest) + Brought(b, ids, fee, es, es[i].dest) <= U64_MAX)
  }

  /** A token account but for its balance. */
  ghost predicate SameButAmount(x: Info, y: Info) {
    x.data.TokenAccount? && y.data.TokenAccount? && y.(data := y.data.(amount := x.data.amount)) == x
  }

  lemma {:induction false} DestsKeepShape(b: Bank, ids: Ids, p: Plan, fee: Fee, es: seq<Entry>, k: Key)
    requires MoveTokens(b, ids, p, fee, es).Some? && Loaded(b, p, es) && p.destination != p.vault && k in DestSet(es)
    ensures SameButAmount(At(b, ids, k), At(MoveTokens(b, ids, p, fee, es).value, ids, k))
    decreases |es|
  {
    var init, e := es[..|es| - 1], es[|es| - 1];
    SetsGrow(es);
    TokensEmptied(b, ids, p, fee, init);
    TokensDelivered(b, ids, p, fee, init);
    var m := MoveTokens(b, ids, p, fee, init).value;
    TurnHolds(m, ids, p, fee, e);
    EntryApart(b, ids, p, fee, init, e, m, MoveToken(m, ids, p, fee, e).value);
    if k in DestSet(init) {
      DestsKeepShape(b, ids, p, fee, init, k);
    } else {
      assert At(m, ids, k) == At(b, ids, k);
    }
  }

  /** Two balances of one ledger are within its total. */
  lemma TwoWithinSum(m: map<Key, nat>, x: Key, y: Key)
    requires x in m && y in m && x != y
    ensures m[x] + m[y] <= Sums.Sum(m)
  {
    Sums.SumTake(m, x);
    Sums.SumTake(m - {x}, y);
  }

  lemma FitsTogether(b: Bank, x: Key, y: Key)
    requires Sums.Sum(b.lamports) <= U64_MAX && x in b.lamports && y in b.lamports && x != y
    ensures Lam(b, x) + Lam(b, y) <= U64_MAX
  {
    TwoWithinSum(b.lamports, x, y);
  }

  /** An entry's accounts when its turn comes: its source and mint as they were, its destination but for the balance. */
  ghost predicate StillReady(b: Bank, ids: Ids, fee: Fee, e: Entry, m: Bank, before: nat) {
    && At(m, ids, e.source) == At(b, ids, e.source) && At(m, ids, e.mint) == At(b, ids, e.mint)
    && Lam(m, e.source) >= Lam(b, e.source)
    && SameButAmount(At(b, ids, e.dest), At(m, ids, e.dest))
    && AmountAt(m, ids, e.dest) == AmountAt(b, ids, e.dest) + before
    && At(b, ids, e.source).data.TokenAccount?
    && AmountAt(b, ids, e.dest) + before + Credit(fee, At(b, ids, e.source).data) <= U64_MAX
  }

  lemma ReadyStays(b: Bank, ids: Ids, p: Plan, fee: Fee, init: seq<Entry>, e: Entry, m: Bank)
    requires p.destination != p.vault && Ready(b, ids, p, e) && e.source !in SourceSet(init)
    requires Emptied(b, ids, p, init, m) && Delivered(b, ids, p, fee, init, m)
    requires forall k :: k in SourceSet(init) + DestSet(init) ==> At(b, ids, k).data.TokenAccount?
    requires forall k :: k in DestSet(init) ==> SameButAmount(At(b, ids, k), At(m, ids, k))
    requires AmountAt(b, ids, e.dest) + Brought(b, ids, fee, init, e.dest) +
              Credit(fee, At(b, ids, e.source).data) <= U64_MAX
    ensures StillReady(b, ids, fee, e, m, Brought(b, ids, fee, init, e.dest))
  {
    assert e.mint !in SourceSet(init) && e.mint !in DestSet(init);
    forall k | k in DestSet(init)
      ensures At(b, ids, k).data.holder == p.destination
    {
      assert SameButAmount(At(b, ids, k), At(m, ids, k));
    }
    assert e.dest !in SourceSet(init);
    if e.dest !in DestSet(init) {
      BroughtElsewhere(b, ids, fee, init, e.dest);
    }
  }

  lemma ReadyMoves(b: Bank, ids: Ids, p: Plan, fee: Fee, e: Entry, m: Bank, before: nat)
    requires Ready(b, ids, p, e) && StillReady(b, ids, fee, e, m, before) && p.destination != p.vault
    requires Sums.Sum(m.lamports) <= U64_MAX && {e.source, e.dest, p.refund} <= m.lamports.Keys
    ensures MoveToken(m, ids, p, fee, e).Some?
  {
    assert e.source != e.dest;
    assert EntryOk(m, ids, p, e);
    var moved := m;
    if At(m, ids, e.source).data.amount > 0 {
      assert CanTransfer(m, ids, fee, e);
      moved := Transferred(m, ids, fee, e);
      TransferShifts(m, ids, fee, e);
    }
    FitsTogether(moved, p.refund, e.source);
    assert CanCloseToken(moved, ids, p, e.source);
  }

  lemma ReadyPrefix(b: Bank, ids: Ids, p: Plan, fee: Fee, es: seq<Entry>)
    requires es != [] && ReadyAll(b, ids, p, fee, es)
    ensures ReadyAll(b, ids, p, fee, es[..|es| - 1]) && es[|es| - 1].source !in SourceSet(es[..|es| - 1])
  {
    var init := es[..|es| - 1];
    forall i | 0 <= i < |init|
      ensures Ready(b, ids, p, init[i])
      ensures AmountAt(b, ids, init[i].dest) + Brought(b, ids, fee, init, init[i].dest) <= U64_MAX
      ensures init[i].source != es[|es| - 1].source
    {
      assert init[i] == es[i];
    }
  }

  /** The token loop goes through. */
  lemma {:induction false} ReadyTokensMove(b: Bank, ids: Ids, p: Plan, fee: Fee, es: seq<Entry>)
    requires Loaded(b, p, es) && ReadyAll(b, ids, p, fee, es) && p.destination != p.vault
    requires Sums.Sum(b.lamports) <= U64_MAX
    ensures MoveTokens(b, ids, p, fee, es).Some?
    decreases |es|
  {
    if es != [] {
      var init, e := es[..|es| - 1], es[|es| - 1];
      ReadyPrefix(b, ids, p, fee, es);
      ReadyTokensMove(b, ids, p, fee, init);
      TokensEmptied(b, ids, p, fee, init);
      TokensDelivered(b, ids, p, fee, init);
      var m := MoveTokens(b, ids, p, fee, init).value;
      forall k | k in SourceSet(init) + DestSet(init)
        ensures At(b, ids, k).data.TokenAccount?
        ensures k in DestSet(init) ==> SameButAmount(At(b, ids, k), At(m, ids, k))
      {
        DestsAreTokens(b, ids, p, fee, init, k);
        if k in DestSet(init) {
          DestsKeepShape(b, ids, p, fee, init, k);
        }
      }
      BroughtBy(b, ids, fee, es, e.dest);
      ReadyStays(b, ids, p, fee, init, e, m);
      ReadyMoves(b, ids, p, fee, e, m, Brought(b, ids, fee, init, e.dest));
    }
  }

  lemma VaultCanPay(m: Bank, ids: Ids, p: Plan)
    requires {p.vault, p.destination} <= m.lamports.Keys && Sums.Sum(m.lamports) <= U64_MAX
    requires At(m, ids, p.vault) == Info(ids.system, NoData) && p.destination != p.vault
    ensures SweepVault(m, ids, p).Some?
  {
    FitsTogether(m, p.destination, p.vault);
  }

  lemma BothCanClose(v: Bank, ids: Ids, p: Plan)
    requires {p.wallet, p.authority, p.refund} <= v.lamports.Keys && Sums.Sum(v.lamports) <= U64_MAX
    requires p.wallet != p.authority && p.refund != p.wallet && p.refund != p.authority
    ensures CloseBoth(v, ids, p).Some?
  {
    FitsTogether(v, p.refund, p.authority);
    PayConserves(v, p.authority, p.refund, Lam(v, p.authority));
    FitsTogether(CloseProgramAccount(v, ids, p.authority, p.refund).value, p.refund, p.wallet);
  }

  /**
   A migration whose entries are ready goes through: whatever the number of tokens, wrapped SOL
   among them, as long as the refund is none of the closed accounts and the destination is not
   the vault. All lamports together fit in 64 bits, as they do on chain.
   */
  lemma ReadyMigrationGoesThrough(b: Bank, ids: Ids, p: Plan, fee: Fee, es: seq<Entry>)
    requires Loaded(b, p, es) && InRole(b, ids, p) && ReadyAll(b, ids, p, fee, es)
    requires At(b, ids, p.vault) == Info(ids.system, NoData) && p.destination != p.vault
    requires p.refund != p.wallet && p.refund != p.authority && Sums.Sum(b.lamports) <= U64_MAX
    ensures Sweep(b, ids, p, fee, es).Some?
  {
    ReadyTokensMove(b, ids, p, fee, es);
    TokensEmptied(b, ids, p, fee, es);
    RolesApart(b, ids, p, fee, es);
    var m := MoveTokens(b, ids, p, fee, es).value;
    VaultCanPay(m, ids, p);
    SweepVaultDoes(m, ids, p);
    BothCanClose(SweepVault(m, ids, p).value, ids, p);
  }

  // ---------------------------------------------------------------------------
  // The signature fixes the sweep
  // ---------------------------------------------------------------------------

  lemma {:induction false} KeysLength(ks: seq<Key>)
    ensures |Keys(ks)| == 32 * |ks|
  {
    if ks != [] {
      KeysLength(ks[..|ks| - 1]);
    }
  }

  lemma {:induction false} KeysDetermine(ks: seq<Key>, js: seq<Key>)
    requires Keys(ks) == Keys(js)
    ensures ks == js
    decreases |ks|
  {
    KeysLength(ks);
    KeysLength(js);
    if ks != [] {
      var n := |ks| - 1;
      KeysLength(ks[..n]);
      KeysLength(js[..n]);
      assert Keys(ks)[..32 * n] == Keys(ks[..n]) && Keys(js)[..32 * n] == Keys(js[..n]);
      assert Keys(ks)[32 * n..] == ks[n] && Keys(js)[32 * n..] == js[n];
      KeysDetermine(ks[..n], js[..n]);
      assert ks == ks[..n] + [ks[n]] && js == js[..n] + [js[n]];
    }
  }

  lemma PayloadParts(p: Plan, ks: seq<Key>)
    requires |ks| < 256
    ensures var s := SignedPayload(p, ks);
            && |s| >= 97 && s[..32] == p.destination && s[32..64] == p.wallet && s[64] == |ks|
            && s[65..97] == p.refund && s[97..] == Keys(ks)
  {
  }

  /**
   Two account lists whose signed payloads agree sweep the same sources, in the same order, out
   of the same wallet, to the same destination and refund.
   */
  lemma PayloadFixesSweep(accounts: seq<Key>, n: nat, others: seq<Key>, m: nat)
    requires n < 256 && 9 + 4 * n <= |accounts| && m < 256 && 9 + 4 * m <= |others|
    requires SignedPayload(PlanOf(accounts), Sources(Entries(accounts, n))) ==
              SignedPayload(PlanOf(others), Sources(Entries(others, m)))
    ensures n == m && forall i :: 0 <= i < n ==> EntryAt(accounts, i).source == EntryAt(others, i).source
    ensures var p, q := PlanOf(accounts), PlanOf(others);
            p.wallet == q.wallet && p.destination == q.destination && p.refund == q.refund
  {
    var ks, js := Sources(Entries(accounts, n)), Sources(Entries(others, m));
    PayloadParts(PlanOf(accounts), ks);
    PayloadParts(PlanOf(others), js);
    KeysDetermine(ks, js);
    forall i | 0 <= i < n
      ensures EntryAt(accounts, i).source == EntryAt(others, i).source
    {
      assert ks[i] == js[i];
    }
  }

  lemma {:induction false} KeysAt(ks: seq<Key>, i: nat)
    requires i < |ks|
    ensures |Keys(ks)| == 32 * |ks| && Keys(ks)[32 * i..32 * i + 32] == ks[i]
    decreases |ks|
  {
    var n := |ks| - 1;
    KeysLength(ks);
    KeysLength(ks[..n]);
    if i < n {
      KeysAt(ks[..n], i);
      assert Keys(ks)[32 * i..32 * i + 32] == Keys(ks[..n])[32 * i..32 * i + 32];
    }
  }

  /** The bytes an Owner signs for a migration: destination, wallet, count, refund, then every source in order. */
  ghost predicate Names(payload: seq<byte>, accounts: seq<Key>, n: nat)
    requires 9 + 4 * n <= |accounts|
  {
    && |payload| == 97 + 32 * n && payload[..32] == accounts[4] && payload[32..64] == accounts[1]
    && payload[64] as int == n && payload[65..97] == accounts[5]
    && forall i :: 0 <= i < n ==> payload[97 + 32 * i..129 + 32 * i] == accounts[9 + 4 * i]
  }

  lemma PayloadNames(accounts: seq<Key>, n: nat)
    requires n < 256 && 9 + 4 * n <= |accounts|
    ensures Names(SignedPayload(PlanOf(accounts), Sources(Entries(accounts, n))), accounts, n)
  {
    var ks := Sources(Entries(accounts, n));
    var payload := SignedPayload(PlanOf(accounts), ks);
    PayloadParts(PlanOf(accounts), ks);
    KeysLength(ks);
    forall i | 0 <= i < n
      ensures payload[97 + 32 * i..129 + 32 * i] == accounts[9 + 4 * i]
    {
      KeysAt(ks, i);
      assert payload[97..] == payload[97..|payload|];
      SliceOfSlice(payload, 97, |payload|, 32 * i, 32 * i + 32);
    }
  }

  /**
   A migration is approved exactly when the payer signs, the accounts are a v1 wallet, an Owner of
   it and its vault, and the Owner's key approves the payload that names them.
   */
  lemma ApprovedExactly(
      b: Bank, ids: Ids, accounts: seq<Key>, payerSigns: bool, n: nat, vaultOf: Key -> Key, approves: seq<byte> -> bool,
      payload: seq<byte>)
    requires 9 + 4 * n <= |accounts| && n < 256
    requires Names(payload, accounts, n)
    ensures Approved(b, ids, accounts, payerSigns, n, vaultOf, approves) <==>
            && payerSigns && accounts[6] == ids.system && accounts[3] == vaultOf(accounts[1])
            && At(b, ids, accounts[1]) == Info(ids.program, WalletV1)
            && At(b, ids, accounts[2]) == Info(ids.program, AuthorityV1(accounts[1], 0))
            && approves(payload)
  {
    var signed := SignedPayload(PlanOf(accounts), Sources(Entries(accounts, n)));
    PayloadNames(accounts, n);
    NamedOnce(payload, signed, accounts, n);
  }

  /** Only one payload names these accounts. */
  lemma NamedOnce(x: seq<byte>, y: seq<byte>, accounts: seq<Key>, n: nat)
    requires 9 + 4 * n <= |accounts| && Names(x, accounts, n) && Names(y, accounts, n)
    ensures x == y
  {
    forall j | 0 <= j < |x|
      ensures x[j] == y[j]
    {
      if j < 32 {
        assert x[j] == x[..32][j] && y[j] == y[..32][j];
      } else if j < 64 {
        assert x[j] == x[32..64][j - 32] && y[j] == y[32..64][j - 32];
      } else if 65 <= j < 97 {
        assert x[j] == x[65..97][j - 65] && y[j] == y[65..97][j - 65];
      } else if j >= 97 {
        var i, k := (j - 97) / 32, (j - 97) % 32;
        assert x[j] == x[97 + 32 * i..129 + 32 * i][k] && y[j] == y[97 + 32 * i..129 + 32 * i][k];
      }
    }
  }
}
