# LazorKit verification model

LazorKit is a Solana smart wallet. A wallet's assets sit in a vault that only the wallet program
signs for; authorities (Ed25519 keys and passkeys), session keys and deferred authorizations make
it sign, and an action buffer bounds what a session or a Delegate may spend. This project models
the parts of the program and of its TypeScript SDK where that is decided, and proves what they
are for.

The modules, in the order they build on each other:

- `Bytes`, `Sums`: bytes, little-endian integers, saturating `u64` arithmetic, totals over maps.
- `ActionBuffer`, `Limits`, `Ledgers`, `PolicyEngine`, `PolicyValidation`, `ActionCodec`,
  `SessionArgs`: the action buffer, from the SDK's writer to the in-place counters, and what its
  limits bound over whole histories.
- `ClientData`, `Base64Url`, `Passkey`, `Authenticator`: the clientDataJSON scanner against JSON
  trees (RFC 8259; section 5.8.1 of W3C Web Authentication Level 2), base64url (section 5 of
  RFC 4648), passkey authentication, and exactly which logins it accepts.
- `Compact`, `TokenAccounts`, `PackedTokens`, `Execute`, `SpendingHistory`: compact instructions
  and the accounts hash, the token account snapshot and the layout it reads, the Execute processor
  around arbitrary inner calls, and histories of accepted Executes.
- `Narrowing`, `Chain`, `Registry`, `WalletProgram`, `Processors`, `Layout`, `Rights`, `Escalation`,
  `PolicyRuns`, `DeferredLife`, `SignedOrders`: the instructions that change who controls a wallet, as a state
  machine, as programs, and over runs.
- `TrustedSpending`, `OrderedReads`, `ReadOrder`, `StaleClock`: the SDK's ordered reads against
  interleaved transactions.
- `Migrate`: MigrateWallet.

Modelling choices:

- A derived address is a constructor of the datatype `Chain.Address`, so derivation is injective.
  SHA-256 is a parameter with nothing assumed about it: a result that rests on its collision
  resistance names the two strings that would have to collide (`Passkey.BrokenHash`).
- Inner calls are arbitrary within what the runtime allows. In `Execute` an account changes only
  if it is listed writable; in `Chain.Effects` accounts this program owns keep their data and
  lose no lamports, a system-owned vault that does not sign keeps both, and a token account is
  its holder's up to its delegate and close authority. Token-2022's permanent delegate is not
  among those rules.
- An account listed twice is one account: lists hold keys, the bank holds the accounts.
- A failed transaction leaves no trace, so a processor that refuses leaves its state unchanged.
- Clock, signatures, rent, the instructions sysvar and the effects of inner calls are parameters.

What does not hold as stated, and exactly when it does:

- A recurring limit of 2^64 - 1 bounds nothing, since the counter saturates at it: one input
  breaks the period, the run and the span bound (`Ledgers.SaturatedMeterOverruns`), and each of
  them holds exactly for smaller limits (`Ledgers.RecurringLimitBoundsIff`).
- A mint's measured outflow is its net fall exactly when the total before fits in 64 bits or
  nothing fell (`TokenAccounts.OutflowIsExactIff`).
- CreateSession's 40-byte form is not self-delimiting: arguments keep their meaning whatever
  payload follows exactly when the input has at least 42 bytes (`SessionArgs.ArgumentsSplitIff`).
- MigrateWallet empties the vault exactly when the refund destination is not the vault
  (`Migrate.VaultEmptyIff`, `Migrate.RefundIntoVaultIsStranded`), and the swept token accounts
  exactly when the destination is none of them or the vault has nothing left to pay it
  (`Migrate.SourcesEmptyIff`, `Migrate.ClosedSourceIsPaid`).
- Reading token accounts before authorities is unsafe (`ReadOrder.TokensFirstIsUnsafe`); the
  SDK's order is safe (`OrderedReads.OrderedReadsAreSafe`).
- The SDK compares expiries with a clock it reads first, and passes no `minContextSlot` from it to
  the scans, so the clock can be newer than the state they show. The verdict is right in every
  honest run if and only if the clock is no newer than the last reads, which are at or after both
  scans; or is slot 1 or less, before which nothing ends; or those reads came more than the
  longest session after the authorities (`StaleClock.ClockIsRightIff`). One slot ahead, a session
  the reads passed over as expired is live only in the slot they were made in; from two slots
  ahead on it can act after them, and exactly then, when a session can reach that far, it can cost
  tokens (`StaleClock.LosesTokensIff`, `StaleClock.StaleByFiveSlots`).
- The signed challenge names the wallet and not the authority account, so a message is single use
  per authority account (`Passkey.NoReplay`) and not per wallet: a second authority of the wallet
  for the same passkey, under another credential hash or closed and added again, accepts the same
  assertion for 150 slots (`Passkey.SecondAuthorityAccepts`). Another account accepts it if and
  only if its wallet, counter, passkey and relying party are the same and the assertion is no
  older (`Passkey.AcceptedElsewhereIff`), and two
  accounts that differ in one of these never accept one assertion, at any time of their lives
  (`Passkey.NoReplayBetweenAccounts`).

## Model

| member | source | states |
|---|---|---|
| ActionBuffer.ParseActions | program/src/state/action.rs:125-168 | The cursor loop computes `Parse`, whose meaning is `ParseMeaning` |
| ActionBuffer.ParseMeaning | program/src/state/action.rs:125-168 | A buffer parses to these views if and only if there are at most 16, they tile it with no gap or overlap, and each header agrees with its bytes |
| ActionBuffer.TilesDisjoint | program/src/state/action.rs:108-168 | Parsed actions never overlap: one ends before the next one's header |
| ActionBuffer.ParseIgnoresData | program/src/state/action.rs:125-168 | Changing only action data, not headers, changes no view |
| ActionBuffer.CountActionHeaders | program/src/state/action.rs:171-180 | On every accepted buffer the length-only pass counts exactly the parsed actions |
| ActionBuffer.CountMatchesParse | program/src/state/action.rs:125-180 | The same from any cursor and any number already seen |
| Limits.VerdictMeansPermitted | program/src/processor/execute/actions.rs:318-500 | The ordered first-error verdict accepts if and only if every action admits its asset's outflow and nothing unnamed leaves |
| Limits.OneRuleDecides | program/src/processor/execute/actions.rs:339-467 | In numbers, for each kind of limit alone: what it lets out, up to and including its last slot, gross or net, and the error otherwise |
| Limits.OnlyNamedMintsFall | program/src/processor/execute/actions.rs:470-500 | In a permitted spend a mint falls only if an action names it |
| Ledgers.LifetimeCapIsExactLedger | program/src/processor/execute/actions.rs:364-374 | Over every history the accepted outflows of a capped asset total exactly initial minus current `remaining`, for SOL and for each mint |
| Ledgers.MeterInvariant | program/src/processor/execute/actions.rs:375-400 | Along every admitted run a recurring counter stays within its limit and its reset slot in the past |
| Ledgers.PeriodIsBounded | program/src/processor/execute/actions.rs:375-400 | Between two resets the spends total at most the limit |
| Ledgers.ResetsAreApart | program/src/processor/execute/actions.rs:375-400 | Two resets are more than a window apart |
| Ledgers.RunIsBounded | program/src/processor/execute/actions.rs:375-400 | A run ending at slot T spends at most limit * (T div (window + 1) + 1) |
| Ledgers.SpanIsBounded | program/src/processor/execute/actions.rs:375-400 | Any window + 1 consecutive slots see at most twice the limit |
| Ledgers.SaturatedMeterOverruns | program/src/processor/execute/actions.rs:1013-1031 | At a limit of 2^64 - 1 three admitted charges in one slot break the period, the run and the span bound |
| Ledgers.RecurringLimitBoundsIff | program/src/processor/execute/actions.rs:375-400 | A fresh recurring limit keeps the period, run and span bounds, all of them and each of them, if and only if it is below 2^64 - 1 |
| Ledgers.MeterExactly | program/src/processor/execute/actions.rs:375-400 | After any admitted charges the counters are the open period's start and sum, and the next charge is admitted if and only if it fits the limit, or what that period has left: a limit renews as soon as the window has passed |
| Ledgers.RecurringLimitExactly | program/src/processor/execute/actions.rs:516-584 | The same for a recurring rule of any policy after any run |
| Ledgers.RunBoundIsReached | program/src/processor/execute/actions.rs:375-400 | No smaller run bound holds: spending the limit as soon as it renews reaches it |
| Ledgers.SpanBoundIsReached | program/src/processor/execute/actions.rs:375-400 | Nor a smaller span bound |
| Ledgers.RuleIsMeter | program/src/processor/execute/actions.rs:516-584 | Inside a whole policy each recurring rule behaves as its meter fed with that asset's accepted outflows |
| Ledgers.ChargesAdmitted | program/src/processor/execute/actions.rs:447-467 | Whatever the other rules say, the meter admitted every charge it was fed, in slot order |
| Ledgers.RecurringLimitHolds | program/src/processor/execute/actions.rs:447-467 | The run and span bounds for every recurring rule of every policy, SOL or mint |
| Ledgers.RecurringPeriodHolds | program/src/processor/execute/actions.rs:447-467 | From one new period of such a rule to the next its asset falls by at most the limit |
| Ledgers.RecurringResetsApart | program/src/processor/execute/actions.rs:516-584 | Its new periods open more than a window apart |
| PolicyEngine.EvaluatePreActions | program/src/processor/execute/actions.rs:79-160 | Passes if and only if there is no policy, or every program index is in range and its program allowed by the unexpired lists; otherwise the error of the first call that is not |
| PolicyEngine.CallsExactly | program/src/processor/execute/actions.rs:88-160 | As sets of programs: outside the live blacklist, and inside the live whitelist if there ever was one |
| PolicyEngine.EvaluatePostActions | program/src/processor/execute/actions.rs:318-590 | No policy: let through untouched. Refused: no byte changes and the error is the first objection. Accepted: only counter bytes change, the buffer parses to the same views, and its meaning is the old policy charged |
| PolicyValidation.ValidateActionsBuffer | program/src/state/action.rs:190-311 | Accepts if and only if the buffer runs and its policy is grantable: no duplicate limit on an asset, no mixed program lists, fresh meters |
| PolicyValidation.GrantableExactly | program/src/state/action.rs:216-311 | Grantable is: no two limits of one kind on one asset, entries of one program list, recurring limits fresh and with a window |
| ActionCodec.SerializeActions | sdk/sdk-kit/src/codecs/actions.ts:349-371 | The parts-then-fill loop produces `Serialize` |
| ActionCodec.SerializedPolicyMeansWhatWasAsked | sdk/sdk-kit/src/codecs/actions.ts:295-371 | The program's reader accepts the SDK's bytes if and only if there are at most 16 actions, and reads exactly what was asked |
| ActionCodec.AcceptedIffGrantable | sdk/sdk-kit/src/codecs/actions.ts:295-371 | Validation accepts serialized actions if and only if what was asked is grantable |
| SessionArgs.ParseSessionArgs | program/src/processor/session/create.rs:54-112 | Computes `ParseArgs` with the cap checked first |
| SessionArgs.ArgsRoundTrip | program/src/processor/session/create.rs:54-112 | Encoded arguments parse back under any payload if and only if the actions may be stored |
| SessionArgs.ArgumentsSplitIff | program/src/processor/session/create.rs:64-112 | The arguments mean the same under every payload if and only if the input has at least 42 bytes |
| Compact.ParseCompactInstructions | program/src/compact.rs:135-158 | The list loop computes `Parse` and the length it consumed |
| Compact.IntoBytes | program/src/compact.rs:174-191 | The push loop produces `Encode` |
| Compact.SerializeInvertsParse | program/src/compact.rs:455-478 | Serializing any parse gives exactly the consumed prefix |
| Compact.ParseInvertsSerialize | program/src/compact.rs:46-87 | Parsing a serialization, whatever follows, gives it back if and only if it is representable |
| Compact.SplitIsUnambiguous | program/src/compact.rs:135-158 | Any bytes that start with the consumed prefix parse the same, so the payload split is unambiguous |
| Compact.AccountsHashPreimage | program/src/compact.rs:364-410 | The walk pushes the key and flags of every referenced account, or fails on a bad index |
| Compact.PreimageExactly | program/src/compact.rs:364-410 | Account by account: 32 bytes of key, then 1 for a signer plus 2 for a writable one; there is a preimage if and only if every index is listed |
| Compact.Decompress | program/src/compact.rs:92-118 | Rebuilds the inner instruction with its forwarded signers, as `IssuedExactly` says |
| Compact.IssuedExactly | program/src/processor/execute/immediate.rs:313-350 | Issued if and only if every index is listed, and then the named program, the data, and for each account its key, writable as given, signing if it is the vault or a forwarded signer, not the payer, and under a session the session key |
| Compact.SignedDeterminesIssued | program/src/compact.rs:364-410 | Equal preimages issue identical inner calls however the account list is ordered |
| Compact.SameBytesSameRun | program/src/processor/execute/immediate.rs:163-178 | Equal compact bytes and preimage issue identical inner calls: program, keys, flags and data |
| Compact.SameHashesSameRun | program/src/processor/execute/deferred.rs:95-111 | Deferred execution: matching instruction and account hashes issue exactly the signed inner calls, or a named pair of strings collides |
| Compact.InnerSigners | program/src/processor/execute/immediate.rs:313-350 | The payer never signs inside, only outer signers and the vault can, and under a session only its key and the vault |
| TokenAccounts.SnapshotVaultTokenAccounts | program/src/processor/execute/actions.rs:178-222 | Each distinct writable vault token account exactly once, in index order, though keys repeat |
| TokenAccounts.HasIndex | program/src/processor/execute/actions.rs:239-285 | The binary search over the snapshot finds an index if and only if it is there |
| TokenAccounts.VerifyVaultTokenAccounts | program/src/processor/execute/actions.rs:239-285 | Passes if and only if every listed account is frozen as snapshotted, or new with no delegate and no close authority, or not the vault's |
| TokenAccounts.HeldMeansFrozen | program/src/processor/execute/actions.rs:689-725 | The byte comparison holds if and only if nothing but the amount changed, the delegated amount only fell, and lamports fell only by a native unwrap |
| PackedTokens.FieldsReadBack | program/src/processor/execute/actions.rs:36-50 | On packed token accounts, extensions or not, every reader returns its field |
| PackedTokens.VaultTokenExactly | program/src/processor/execute/actions.rs:645-686 | A packed account is the vault's if and only if it is initialized, held by it, of a token program and, with extensions, of Token-2022's account type and no multisig's length |
| PackedTokens.FrozenExactly | program/src/processor/execute/actions.rs:689-725 | In fields: it passes the freeze if and only if only its balance and a fallen delegated amount differ, and its lamports fell only with a wrapped balance |
| PackedTokens.CleanExactly | program/src/processor/execute/actions.rs:259-285 | In fields: no delegate and no close authority |
| TokenAccounts.AddFlow | program/src/processor/execute/actions.rs:630-642 | The mint's one entry gets both amounts added with saturation and every other stays; a new mint gets a new last entry |
| TokenAccounts.MintFlows | program/src/processor/execute/actions.rs:289-303 | The flows are the per-mint totals over distinct accounts, before and after |
| TokenAccounts.MeasuredOutflow | program/src/processor/execute/actions.rs:621-642 | The outflow looked up is the saturated difference of those totals |
| TokenAccounts.OutflowIsExactIff | program/src/processor/execute/actions.rs:621-642 | The outflow looked up is what the accounts really lost of the mint if and only if the total before fits in 64 bits or nothing fell |
| Execute.GrossIsFalls | program/src/processor/execute/immediate.rs:313-372 | The gross outflow is the sum of all falls, capped at 2^64 - 1, and counts no rise |
| Execute.GrossIsNetWithoutRise | program/src/processor/execute/immediate.rs:313-372 | Where the vault never gains, it is the net outflow |
| Execute.GrossDominates | program/src/processor/execute/immediate.rs:280-372 | Between any two points of the call loop the vault falls by at most the tracked gross outflow, saturation included |
| Execute.FallIsMeasured | program/src/processor/execute/immediate.rs:233-409 | What the snapshot measures per mint is the vault's net fall over all its token accounts |
| Execute.RunInner | program/src/processor/execute/immediate.rs:280-372 | The call loop succeeds exactly when every instruction can be rebuilt and none targets this program, issues exactly those, and tracks the gross outflow of the vault's trace |
| Execute.Settle | program/src/processor/execute/immediate.rs:374-409 | Accepted if and only if the vault's account and every writable token account of it were held and the policy permits the measured spend, which is then charged; refused, no byte changes |
| Execute.AuthenticateSigner | program/src/processor/execute/immediate.rs:139-231 | Accepts exactly an authority of the wallet by its key or passkey, or a live session of it; a passkey's counter moves and nothing else |
| Execute.RunSigned | program/src/processor/execute/immediate.rs:233-409 | From an authenticated signer on, when it accepts, and that accepted means `Outcome`; refused, no byte changes |
| Execute.Process | program/src/processor/execute/immediate.rs:40-409 | For any allowed inner effects: it accepts exactly when the signer may sign, the calls can be made and, under a policy, the programs may be called, control of the vault is held and the policy permits the measured spend, and refuses that with the policy's error; an accepted Execute was signed by one who may, a passkey's counter moved, and the calls are the ones asked for; under a policy the vault's owner, data length and token metadata are kept, only what every action on the asset admits is spent, and it is charged; without one nothing but that counter moves; refused, nothing |
| SpendingHistory.AcceptedIsStep | program/src/processor/execute/immediate.rs:398-409 | What an accepted Execute leaves in the account is what the state machine's Execute step asks for: the policy charged with what the vault lost, in this slot |
| SpendingHistory.SolFallsOnlyIfNamed | program/src/processor/execute/immediate.rs:374-409 | The vault's lamports fall only if an action names SOL, and every cap and rate on it had room for the whole fall |
| SpendingHistory.MintFallsOnlyIfNamed | program/src/processor/execute/immediate.rs:374-409 | Its holding of a mint, over every token account, falls only if an action names the mint, and every such action had room |
| SpendingHistory.PerTxBoundsEveryDip | program/src/processor/execute/actions.rs:351-363 | A per-transaction limit bounds every fall between two points of the call loop |
| SpendingHistory.HistoryIsRun | program/src/processor/execute/actions.rs:501-590 | Over a history of accepted Executes on one buffer, the bytes each finds are the granted policy charged with all before it |
| SpendingHistory.CapIsLedgerOfTheVault | program/src/processor/execute/actions.rs:364-374 | What the vault really lost of an asset over a history equals the fall of `remaining` in the bytes, for SOL and for each mint |
| SpendingHistory.RateBoundsTheVault | program/src/processor/execute/actions.rs:375-400 | What it lost of an asset by a slot is within the recurring limit's allowance |
| SpendingHistory.RateBoundsEverySpan | program/src/processor/execute/actions.rs:375-400 | What it lost of an asset in any window + 1 slots is at most twice the recurring limit |
| SpendingHistory.SameMessageSameCalls | program/src/processor/execute/immediate.rs:162-179 | One passkey message accepted for two Executes issues the same inner calls for the same wallet and payer, or a named pair of strings collides |
| ClientData.ExtractTopLevelStringField | program/src/auth/secp256r1/webauthn.rs:69-229 | The nested cursor loops terminate and compute `Extract`, which `ScannerDecidesEveryObject` says |
| ClientData.ScannerDecidesEveryObject | program/src/auth/secp256r1/webauthn.rs:61-229 | On every JSON object, escapes included, it answers the string member of the name, and refuses when a backslash shows in a top-level name, in that string, or anywhere in what comes before it |
| ClientData.ScannerFindsFirstTopLevelString | program/src/auth/secp256r1/webauthn.rs:69-229 | On every printed JSON object the scanner returns the first top-level member of the name if it is a string and fails otherwise |
| Base64Url.EncodeNoPad | program/src/auth/secp256r1/webauthn.rs:7-29 | The chunk loop computes `Encode` |
| Base64Url.EncodeExactly | program/src/auth/secp256r1/webauthn.rs:7-29 | Character by character: the bytes' bits in sixes, high ones first, in the URL-safe alphabet |
| Base64Url.EncodeLength | program/src/auth/secp256r1/webauthn.rs:7-29 | Four characters for three bytes, rounded up, and no padding |
| Base64Url.DecodeInvertsEncode | program/src/auth/secp256r1/webauthn.rs:7-29 | Every byte string is decoded back from its encoding |
| Base64Url.EncodeIsInjective | program/src/auth/secp256r1/webauthn.rs:7-29 | One encoding, one byte string |
| Passkey.PayloadIsAssertion | program/src/auth/secp256r1/mod.rs:60-198 | A payload reads as an assertion if and only if it is that assertion's one encoding |
| Passkey.VerifyInstructionData | program/src/auth/secp256r1/introspection.rs:65-142 | Accepts if and only if the precompile's own reading of its offsets is this key and this message, at the standard places |
| Passkey.CtEq | program/src/auth/secp256r1/mod.rs:304-313 | The accumulator is zero if and only if the strings are equal |
| Passkey.PreimageDecodesUniquely | program/src/auth/secp256r1/mod.rs:126-166 | Equal challenge preimages have equal discriminator, prefix, payload, payer, wallet, counter and program |
| Passkey.CheckTurn | program/src/auth/secp256r1/mod.rs:62-110 | When the slot window or the odometer refuses, and with which error |
| Passkey.CheckAssertion | program/src/auth/secp256r1/mod.rs:112-284 | Past the odometer, accepts exactly on `Accepts` |
| Passkey.Authenticate | program/src/auth/secp256r1/mod.rs:51-296 | Accepts exactly on `Accepts` and then moves the four counter bytes and nothing else; a refusal moves nothing |
| Authenticator.AcceptsExactly | program/src/auth/secp256r1/mod.rs:51-296 | A login built from a JSON document, authenticator data and a precompile instruction is accepted if and only if it is top level, under 150 slots old, next in count, paid for by a signer, and answers this challenge for a present user of this relying party under this passkey |
| Authenticator.PrecompileVerifies | program/src/auth/secp256r1/introspection.rs:65-142 | The instruction a client builds is in the standard layout and verifies its own key and message |
| Passkey.MessageBindsIntent | program/src/auth/secp256r1/mod.rs:126-218 | One signed message accepted anywhere twice was accepted for the same instruction, payload, payer, wallet, counter and program, or a named pair of strings collides |
| Passkey.CounterCounts | program/src/auth/secp256r1/mod.rs:286-293 | The stored counter is the number of accepted authentications of the account's life |
| Passkey.AcceptedCountersAreConsecutive | program/src/auth/secp256r1/mod.rs:76-110 | Accepted counters are 1, 2, 3, ... without gap or wrap, each within 150 slots |
| Passkey.NoReplay | program/src/auth/secp256r1/mod.rs:95-110 | No signed message is accepted at two times of one account's life, or a named pair collides |
| Passkey.AcceptedElsewhereIff | program/src/auth/secp256r1/mod.rs:126-166 | An assertion one account accepts is accepted by another, then or later, if and only if wallet, counter, passkey and relying party are the same and it is under 150 slots old, or the two challenges collide |
| Passkey.SecondAuthorityAccepts | program/src/auth/secp256r1/mod.rs:95-146 | So a second authority of the wallet for the same passkey, under any credential hash, accepts it too within those slots |
| Passkey.NoReplayBetweenAccounts | program/src/auth/secp256r1/mod.rs:95-146 | Two accounts that differ in wallet, counter, passkey or relying party never accept one assertion, at any times of their lives, or a named pair collides |
| Passkey.TwinsHaveEqualHistories | program/src/auth/secp256r1/mod.rs:286-293 | Accounts that do are of one wallet and have accepted equally many authentications |
| Passkey.NoOtherWallet | program/src/auth/secp256r1/mod.rs:135-146 | Nor on another wallet, for another instruction or another payload |
| Narrowing.SettledNarrows | program/src/processor/execute/actions.rs:501-590 | An accepted charge narrows a policy: limits, windows, mints, lists and expiries stay, caps only fall, only counter bytes move |
| Registry.InvDone | program/src/processor/authority/manage.rs:394-403 | Every edit keeps records in agreement with address, wallet, rank, policy and owner count |
| WalletProgram.InvStep | program/src/processor/authority/transfer_ownership.rs:239-338 | Every instruction, MigrateWallet and other programs' transactions included, keeps that invariant |
| WalletProgram.InvReached | program/src/processor/wallet/create.rs:204-217 | It holds in every reachable state |
| Processors.Program.InitializePda | program/src/utils.rs:97-189 | Tops up and allocates exactly when the target is unallocated and the payer can pay |
| Processors.Program.CloseAccount | program/src/processor/authority/manage.rs:600-625 | Refuses a refund into itself or past 64 bits; else drains and zeroes |
| Processors.Program.Authenticate | program/src/auth/ed25519.rs:29-62 | Accepts exactly a top-level signer, or an assertion of the passkey for this payer, wallet, next counter and order, and moves a passkey's odometer |
| Processors.Program.CreateWallet | program/src/processor/wallet/create.rs:121-316 | Accepted exactly when enabled, makes that step, keeps the invariant |
| Processors.Program.AddAuthority | program/src/processor/authority/manage.rs:139-463 | The same, with rank and policy rules |
| Processors.Program.RemoveAuthority | program/src/processor/authority/manage.rs:482-628 | The same, never the last Owner and never oneself |
| Processors.Program.TransferOwnership | program/src/processor/authority/transfer_ownership.rs:125-341 | The same, writing the new Owner before closing the old |
| Processors.Program.CreateSession | program/src/processor/session/create.rs:133-339 | The same, by an unbounded Owner or Admin, for at most 6480000 slots |
| Processors.Program.Authorize | program/src/processor/execute/authorize.rs:41-212 | The same, at the address of the counter just committed, for 10 to 9000 slots |
| Processors.Program.ExecuteDeferred | program/src/processor/execute/deferred.rs:32-224 | The same, for instructions and accounts that hash to what was authorized; the record is zeroed in the state after every inner call, and the rent moves last |
| Processors.Program.ReclaimDeferred | program/src/processor/execute/reclaim.rs:30-118 | The same, only past expiry and only to the stored payer |
| Layout.DelegateIffPolicy | program/src/state/policy.rs:44-109 | In every reachable state an authority is a Delegate iff its header's policy length is not zero iff `PolicyLocation` finds a policy, which is the one it was given |
| Layout.SessionPolicyFound | program/src/state/policy.rs:44-109 | In every reachable state `PolicyLocation` finds a session's policy if and only if it has one, and it is the one it was given; inner calls are restricted to its key |
| Layout.SessionSignsIff | program/src/processor/execute/immediate.rs:182-235 | A session's account lets an Execute through if and only if the state machine lets the session act: its wallet, up to its last slot, its key signing, top level |
| Layout.KeySignsIff | program/src/auth/ed25519.rs:29-62 | A key authority's does if and only if the machine says it authenticates |
| Layout.PasskeySignsIff | program/src/processor/execute/immediate.rs:162-180 | A passkey's does if and only if the wallet is its own and the assertion holds |
| Layout.OpenedIsTicked | program/src/auth/secp256r1/mod.rs:286-293 | What authenticating leaves in the account is the image of the record with its odometer moved |
| Layout.PreflightExactly | program/src/processor/execute/immediate.rs:55-94 | The first checks pass if and only if the payer signs, wallet and signer are this program's, the signer is writable and the vault is there |
| Rights.AcceptedIffEntitled | program/src/processor/authority/manage.rs:34-63 | Given who asks and that it can be paid for, an instruction is accepted if and only if a table of ranks allows it |
| Rights.ExecuteIsForAll | program/src/processor/execute/immediate.rs:131-236 | Any authority that authenticates and any live session may execute, under a policy exactly when it is charged with what the vault lost |
| Rights.WalletsCanBeMade | program/src/processor/wallet/create.rs:121-316 | A wallet is made for any usable key by whoever can pay for both accounts |
| Rights.RemoverStays | program/src/processor/authority/manage.rs:587-590 | An accepted RemoveAuthority never closes its own actor |
| Rights.PrefundedCanBeMade | program/src/utils.rs:97-189 | Lamports sent ahead do not keep an account from being made |
| Rights.CreatedIsFunded | program/src/utils.rs:97-189 | A new account holds its rent, or what it held if more, and the payer paid the difference |
| Rights.UsableExactly | program/src/processor/authority/manage.rs:146-166 | Any key but the zero key, and a 33-byte passkey under any credential but the zero one |
| Rights.DeferredEndsEitherWay | program/src/processor/execute/reclaim.rs:30-118 | At every slot a deferred authorization is either executable or reclaimable: up to its expiry the one, past it the other |
| Rights.ExpiredSessionsClose | program/src/processor/session/close_expired.rs:46-107 | Anyone can close a session from the slot after its last, and not before |
| Rights.AddLeaves | program/src/processor/authority/manage.rs:394-463 | An added authority has the rank and policy given, odometer zero, and an Owner is counted |
| Rights.RemoveLeaves | program/src/processor/authority/manage.rs:591-625 | A removed one is gone, its lamports are the refund's, an Owner is no longer counted |
| Rights.TransferLeaves | program/src/processor/authority/transfer_ownership.rs:239-338 | The new Owner is there, the old one gone, the count as it was |
| Rights.SessionLeaves | program/src/processor/session/create.rs:306-336 | A session has the key, end and policy asked for |
| Rights.AuthorizeLeaves | program/src/processor/execute/authorize.rs:137-209 | An authorization is written for the payer at the counter just used, to end at slot plus offset |
| Escalation.OwnersAreCounted | program/src/processor/authority/manage.rs:587-614 | In every reachable state the stored count is the number of live Owners and at least 1 |
| Escalation.RanksKept | program/src/processor/authority/manage.rs:313-356 | One step changes a wallet's Owners or Admins only if one of its Owners acts |
| Escalation.OwnersDecideRanks | program/src/processor/authority/manage.rs:34-63 | Over any stretch without an Owner's authentication both sets are unchanged |
| Escalation.NothingAppears | program/src/processor/session/create.rs:197-210 | Without its Owner or Admin, whatever is on a wallet after a step was there with the same rights, its policy at most charged |
| Escalation.ManagersDecideRecords | program/src/processor/execute/authorize.rs:105-119 | Over any such stretch no authority, session or deferred authorization appears and no policy is widened |
| PolicyRuns.StepOnPolicy | program/src/processor/execute/immediate.rs:398-409 | Only an Execute its bearer signs touches a policy, and then only to charge it |
| PolicyRuns.NeverWidened | program/src/processor/authority/manage.rs:329-345 | Over any run, whoever acts, the policy of a living session or authority is never widened |
| PolicyRuns.PolicyIsItsHistory | program/src/processor/execute/actions.rs:501-590 | It is the policy granted, charged with every Execute its bearer signed since, and the SOL spent is what the vault lost to it |
| PolicyRuns.SolCapIsLedgerOfRun | program/src/processor/execute/actions.rs:364-374 | Over any run a SOL cap falls by exactly the lamports the vault lost to its bearer |
| PolicyRuns.SolRateBoundsRun | program/src/processor/execute/actions.rs:375-400 | Over any run a fresh SOL rate bounds what the vault lost to its bearer: the limit for every started period |
| DeferredLife.LamportsConserved | program/src/processor/execute/deferred.rs:211-221 | No instruction makes or loses a lamport |
| DeferredLife.RunConserves | program/src/processor/execute/reclaim.rs:103-115 | Nor does any run |
| DeferredLife.EndsInTime | program/src/processor/execute/deferred.rs:84-135 | Execution only up to expiry, reclaim only past it; the record is gone and its whole balance is with the stored payer, on top of what inner calls credited |
| DeferredLife.ConsumedDuringCalls | program/src/processor/execute/deferred.rs:123-135 | During every inner call the authorization fails its checks, for execution and for reclaim |
| DeferredLife.WasAuthorized | program/src/processor/execute/authorize.rs:137-209 | Whatever is pending was written by one Authorize and has not changed or ended since |
| DeferredLife.ExecutionWasAuthorized | program/src/processor/execute/deferred.rs:95-111 | Every execution has an Authorize with the same wallet and hashes at most 9000 slots before |
| DeferredLife.EndsOnce | program/src/processor/execute/reclaim.rs:55-115 | Two endings of one address have an Authorize between them |
| DeferredLife.AddressIsFreshPerLife | program/src/processor/execute/authorize.rs:137-162 | Two authorizations of one address have their authority closed between them |
| SignedOrders.StepNeedsAssertion | program/src/auth/secp256r1/mod.rs:126-166 | Nothing acts through a passkey authority without an assertion for this order, payer and counter on the authority's own wallet |
| SignedOrders.AssertionIsUsedOnce | program/src/auth/secp256r1/mod.rs:95-110 | Over any run, two uses of one assertion by an authority have its close between them |
| SignedOrders.AssertionDoesOneThing | program/src/auth/secp256r1/mod.rs:126-166 | Whoever uses one assertion, whenever, carries out the same order for the same payer on the same wallet |
| TrustedSpending.RecordsStayClean | sdk/sdk-kit/src/client.ts:1372-1397 | With only trusted authorities on the wallet, no untrusted authority, live session or deferred authorization comes about |
| TrustedSpending.VaultSigns | sdk/sdk-kit/src/client.ts:1384-1391 | In a clean state the vault signs only for trusted actors or what they authorized |
| TrustedSpending.GoodStays | sdk/sdk-kit/src/client.ts:520-560 | In a clean state, with trusted keys passing on no right of theirs, no token account of the vault becomes exposed or lost, whoever else signs and whichever close authority reassigns itself |
| TrustedSpending.InTermReached | program/src/processor/session/create.rs:212-224 | In every reachable state a session or deferred authorization ends after slot 0 and within the longest session from now |
| TrustedSpending.SpendIsTrusted | sdk/sdk-kit/src/client.ts:1392-1396 | From a safe state, lamports and tokens leave only by a trusted hand |
| OrderedReads.DescribeCandidate | sdk/sdk-kit/src/client.ts:1429-1551 | The loops compute `Alone`, the controlled-alone verdict, which `AloneExactly` says |
| OrderedReads.AloneExactly | sdk/sdk-kit/src/client.ts:1452-1551 | The verdict is true if and only if the caller's passkey is still an Owner, the vault is a plain account, and no authority, live session, live deferred authorization or right on a token account is an outsider's |
| OrderedReads.OutsidersExactly | sdk/sdk-kit/src/client.ts:1459-1492 | Who is an outsider, case by case: any key not trusted, whatever its rank, and any passkey but the caller's own |
| OrderedReads.LaterSlotLaterState | sdk/sdk-kit/src/client.ts:1405-1416 | A read at a slot no older saw a state no earlier |
| OrderedReads.OrderedReadsAreSafe | sdk/sdk-kit/src/client.ts:1372-1427 | If the ordered reads, the two concurrent token reads and all others however interleaved with transactions, say controlled alone, and the clock is right, then in every later state no outsider can spend and every spend is a trusted one |
| OrderedReads.ClockOfAScanIsSafe | sdk/sdk-kit/src/client.ts:1405-1416 | The clock is right in particular when it is no newer than the later of the two scans |
| ReadOrder.TokensFirstIsUnsafe | sdk/sdk-kit/src/client.ts:1372-1380 | With tokens read before authorities a two-step run passes the same verdict while an outsider can spend |
| StaleClock.ClockIsRightIff | sdk/sdk-kit/src/client.ts:1209-1215 | For given clock and read slots the verdict is right in every honest run if and only if the clock is no newer than the last reads, or slot 1, or the reads outlast every session |
| StaleClock.LosesTokensIff | sdk/sdk-kit/src/client.ts:1394-1396 | Some honest run has the verdict and then a vault token account exposed or lost if and only if the clock is more than a slot ahead of the last reads and a session can reach past them |
| StaleClock.StaleClockLosesTokens | sdk/sdk-kit/src/client.ts:1394-1396 | One half: then a session approves itself on a vault token account one slot after the reads |
| StaleClock.StaleByFiveSlots | sdk/sdk-kit/src/client.ts:1398-1416 | In particular with clock 100 and every read answered from slot 95 |
| Migrate.BuildPayload | program/src/processor/migrate.rs:160-178 | The indexed loop binds the sources of the entries the sweep will move |
| Migrate.Ledger.MoveOne | program/src/processor/migrate.rs:226-316 | One turn: the whole amount is transferred and the source closed, or nothing changes |
| Migrate.Ledger.SweepTokens | program/src/processor/migrate.rs:226-316 | The shrinking-slice loop moves exactly the entries the payload binds, in order |
| Migrate.Ledger.Process | program/src/processor/migrate.rs:81-344 | Accepted exactly when approved and sweepable, and then the accounts are swept in place; refused, nothing changes |
| Migrate.MigrationLeaves | program/src/processor/migrate.rs:220-341 | Lamports are conserved; sources, wallet and authority are closed; nothing else changes but the receivers |
| Migrate.VaultEmptyIff | program/src/processor/migrate.rs:318-341 | The vault ends empty if and only if the refund is not the vault |
| Migrate.RefundIntoVaultIsStranded | program/src/processor/migrate.rs:339-341 | A refund into the vault is accepted and leaves the closed records' rent there |
| Migrate.TokensArrive | program/src/processor/migrate.rs:245-301 | Each destination account holds what it held plus what its sources held, less what the mints withhold |
| Migrate.MigrationConserves | program/src/processor/migrate.rs:220-341 | Whoever destination and refund are, the swept accounts that are not paid at the end hold no lamports and all of theirs are now with the receivers; swept are the vault, wallet, authority and sources, all of them when the refund is not the vault and the destination no source |
| Migrate.SourcesEmptyIff | program/src/processor/migrate.rs:302-341 | The sources end without lamports if and only if the destination is none of them, or the vault had nothing and no rent was refunded into it |
| Migrate.ClosedSourceIsPaid | program/src/processor/migrate.rs:302-341 | A source named as the destination is accepted, closed and then holds the vault's SOL |
| Migrate.ReadyMigrationGoesThrough | program/src/processor/migrate.rs:220-341 | A migration of any number of thawed vault accounts to accounts of the destination goes through, unless the refund is a closed account or the destination the vault |
| Migrate.ApprovedExactly | program/src/processor/migrate.rs:81-218 | Approved if and only if the payer signs, the accounts are a v1 wallet, its Owner and its vault, and the Owner's key approves the bytes that name destination, wallet, count, refund and each source in order |
| Migrate.PayloadFixesSweep | program/src/processor/migrate.rs:160-178 | Equal signed payloads sweep the same sources in the same order to the same destination and refund |

## Left out

- Cryptography: P-256, SHA-256 and the precompile's own signature check are parameters.
- PDA search and bumps, alignment, heap sizing, account sizes in bytes beyond those the policy offset depends on.
- Protocol fees, treasury shards and admin rotation: single-branch code that would add only easy members.
- Instruction argument parsing other than CreateSession's; the key-material parsers would only add easy members.
- `vetDestination`, candidate search, ownership proofs, RPC retries and the rest of the SDK's plumbing.
- The owned compact-instruction parser: the same code as the borrowed one apart from copying, so one model serves both.
- Forks of the chain between two RPC answers: reads are positions in one run.
- Token accounts of unwatched mints handed away from the vault: nothing on chain points back from them.
- RevokeSession, CloseExpiredSession and Execute are steps of the state machine without a processor method of their own there; Execute's own processor is `Execute.Process`.
- Error codes in `Processors`: a refusal is one value there, since none of the proved properties depends on which error it is.
- Processors.Program.Authenticate: takes what a transaction's verified assertions are bound to as given, and for an Execute does not name the payload; that a message is bound so, and what it issues, are `Passkey.MessageBindsIntent` and `SpendingHistory.SameMessageSameCalls` on the bytes.
- WalletProgram's MigrateWallet step allows whatever a v1 vault's signature allows; what the instruction itself does is `Migrate.Ledger.Process`.
- WalletProgram's Execute step ties SOL to what the vault lost; for mints the tie is `SpendingHistory.CapIsLedgerOfTheVault`, over the accounts' bytes.
