# ICS-999 core contract, modelled in Dafny

ICS-999 is a CosmWasm contract that sends packets of *actions* between chains over IBC. It handles fungible token transfers, interchain account registration, contract execution and queries.

On the **sending chain**:
- `act` takes the user's funds and actions.
- It escrows native coins and burns vouchers.
- It checks that the funds equal the transfers plus the relayer fees.
- It sends one packet, which `packet_lifecycle_complete` later settles on acknowledgement or timeout.

On the **receiving chain**:
- `packet_receive` turns the packet into a self-call `Handle`.
- That call runs the actions one at a time through a persisted `Handler`, a stack of pending actions and a list of results.
- Each non-query action is dispatched as a sub-message whose reply resumes the queue.
- `after_all_actions` turns the outcome of the whole queue into the acknowledgement.

A channel handshake admits one unordered `ics999-1` channel per connection.

The model is split into one module per part of the core:

| file | module | models |
|---|---|---|
| `types.dfy` | `Types` | coins, endpoints, actions, messages, responses, errors, and `Platform`, the host functions the core calls |
| `state.dfy` | `State` | the contract's storage (`ACTIVE_CHANNELS`, `DENOM_TRACES`, `ACCOUNTS`, `HANDLER`, …) as a class |
| `text.dfy` | `Text` | UTF-8, decimal and hex printing, `join`, `split_once` |
| `coins.dfy` | `Ledger` | the `Coins` ledger: a BTreeMap kept as its strictly sorted entry list, with `add` updating it in place |
| `traces.dfy` | `Traces` | `TraceItem` / `DenomTrace`: source-or-sink decisions and the bytes fed to the hash |
| `token_factory.dfy` | `TokenFactory` | `construct_denom` / `deconstruct_denom` |
| `accounting.dfy` | `Accounting` | `mint`, `burn`, `release`, `escrow` pushing onto caller-owned lists; the creation-fee guard; the older response builders |
| `controller.dfy` | `Controller` | `act` with relayer fees and `packet_lifecycle_complete`, with balance accounting over a packet's life |
| `legacy_execute.dfy` | `LegacyExecute` | the older `act` of `execute.rs` |
| `handshake.dfy` | `Handshake` | channel open, connect and close, in both revisions |
| `handler.dfy` | `HostHandler` | the `Handler` state machine, as a class with a specification function per step |
| `host.dfy` | `Host` | `packet_receive`, `handle`, `after_action`, `after_all_actions` |
| `contract.dfy` | `Contract` | the entry points: `execute`, `reply`, the channel and packet entry points, the `DenomHash` query |

## How the model is written

**Loops and in-place updates.** Every loop or in-place update of the source is a `method`. `Coins::add`, the helpers' pushes, the loops of both `act`s, the refund loop and the handler's steps are all methods. Each method is proved equal to a function that specifies it:
- `Controller.ActSpec`;
- `Controller.CompleteSpec`;
- `LegacyExecute.LegacyActSpec`;
- `HostHandler.NextAction`;
- `Host.AfterActionSpec`.

The properties the code promises are then proved as lemmas about these functions.

**Host functions.** Every call into the chain is a field of `Platform`, passed as a parameter. This covers:
- the block time;
- the port;
- the querier;
- `instantiate2_address`;
- `addr_validate`;
- the `parse_*_response_data` functions;
- `connection_of_channel`;
- the decoding of action results.

RIPEMD-160 is a function parameter of `Traces.Hash`.

**Where the revisions disagree, the model follows the code.**
- `contracts/core/src/contract.rs` calls modules named `action` and `ibc` for `handle`, `after_action`, `packet_receive`, `after_all_actions`, `after_callback` and `packet_lifecycle_complete`. In this revision those functions live in `host/mod.rs` and `controller/mod.rs`, so the entry points are modelled as calls into those.
- The `Act` arm goes to the older `execute::act`, as written, and so carries no relayer fee.
- The channel entry points go to `ibc.rs`, whose `open_connect` labels its first attribute `action`.
- `ibc_channel_close` goes to the `close` of `handshake.rs`, since `ibc.rs` has none.
- `contract.rs` builds `Handle` with three fields and calls `packet_receive` without a relayer. `host/mod.rs` builds it with five. The model uses the `host/mod.rs` form, passing the connection id where `handle` passes endpoints to `create`.
- `host/mod.rs:86` calls a `handler.after_action` that does not exist; the model calls `handle_result`, which is what the handler defines.
- The newer Query branch (`host/handler.rs:239-252`) records the result and then refers to an undefined `msg`. The model answers it on the spot and goes on with the next action, like the older query branches.
- `DenomTrace::is_source` follows its code (true when the last hop is `localhost`), not its doc comment.

**Panics become errors.** An `expect`, `todo!` or `unreachable!` on data received from outside becomes an error result, for example the missing reply data in `after_all_actions` and an unknown reply id. A panic on a state the code rules out becomes a `requires` backed by a proved invariant. For example, `handle_result` needs an active non-query action, and `Host.SavedHandlerResumable` proves that every saved handler has one.

**Funds as delivered.** Coin lists received from the bank are assumed sorted with one coin per denom (`Ledger.Sorted`) only in the balance lemmas. Everywhere else `From<Vec<Coin>>` is modelled as it is, last occurrence wins.

## Model

| member | source | states |
|---|---|---|
| Ledger.SortedCanonical | contracts/core/src/utils/coins.rs:6-8 | two ledgers are equal exactly when they book the same amount for every denom, so BTreeMap equality is map equality |
| Ledger.SortedDistinct | contracts/core/src/coins.rs:22-35 | the entry list of a ledger holds each denom once |
| Ledger.SortedPairwise | contracts/core/src/utils/coins.rs:21-22 | entries come out in strictly ascending denom order |
| Ledger.Collect | contracts/core/src/coins.rs:11-20 | building a ledger from a coin list gives a sorted ledger standing for the same map as the list |
| Ledger.PutSpec | contracts/core/src/utils/coins.rs:62 | booking an entry keeps the ledger sorted and sets exactly that denom's amount |
| Ledger.AddCoin | contracts/core/src/coins.rs:42-46 | `add` succeeds exactly when the new total fits a Uint128; it then raises that denom by the amount, starting from zero if absent, and leaves every other denom as it was; an overflow can only happen on a denom already present |
| Ledger.OrInsertThenAdd | contracts/core/src/utils/coins.rs:62-63 | the insert-at-zero step changes nothing on an absent denom's final value, and when the raise overflows the insert has left the ledger unchanged |
| Ledger.AddAllSpec | contracts/core/src/utils/coins.rs:61-65 | repeated `add` succeeds exactly when no denom's final total overflows, and then each denom holds its start amount plus everything added for it |
| Ledger.AddAllFromEmpty | contracts/core/src/utils/coins.rs:53-65 | adding a list to the empty ledger gives each denom its total, or fails exactly when some total overflows |
| Ledger.AddCoinChanges | contracts/core/src/utils/coins.rs:101-105 | adding a positive amount always changes the ledger |
| Ledger.CoinStrings | contracts/core/src/utils/coins.rs:43-46 | one string per entry, in entry order: the entry's decimal amount followed by its denom |
| Ledger.DisplaySpec | contracts/core/src/utils/coins.rs:36-50 | the rendering is `[]` exactly for the empty ledger; otherwise it is the entries' `{amount}{denom}` strings joined by `,`, so it opens with the first entry's decimal amount |
| Ledger.Coins.Empty | contracts/core/src/utils/coins.rs:53-55 | the empty ledger stands for the empty map |
| Ledger.Coins.FromVec | contracts/core/src/utils/coins.rs:12-19 | the ledger built from a list stands for the list's map, last occurrence winning |
| Ledger.Coins.IsEmpty | contracts/core/src/utils/coins.rs:57-59 | true exactly when no denom is booked |
| Ledger.Coins.ToVec | contracts/core/src/utils/coins.rs:23-34 | one coin per denom, strictly ascending, standing for the ledger's map |
| Ledger.Coins.ToString | contracts/core/src/utils/coins.rs:36-40 | `"[]"` exactly for the empty ledger |
| Ledger.Coins.Equals | contracts/core/src/utils/coins.rs:7 | equal exactly when the two ledgers stand for the same map |
| Ledger.Coins.Add | contracts/core/src/utils/coins.rs:61-65 | in-place `add`: the new entries are `AddCoin` of the old ones, and an overflow returns the error with the ledger unchanged |
| Ledger.AddingVector | contracts/core/src/utils/coins.rs:76-91 | the `adding` test: 12345 and 88888 umars sum, and the vector comes out as uastro, umars, uosmo |
| Ledger.ComparingVector | contracts/core/src/utils/coins.rs:93-106 | the `comparing` test: adding 1 umars to a ledger succeeds and makes it differ from what it was |
| Ledger.CollectIsUnchecked | contracts/core/src/utils/coins.rs:10-19 | duplicates are not summed (the last one wins) and zero amounts stay booked |
| Text.Utf8Append | contracts/core/src/transfer/trace.rs:53-56 | UTF-8 encoding of a concatenation is the concatenation of the encodings, so feeding the hasher piece by piece is feeding it one string |
| Text.Utf8Injective | contracts/core/src/transfer/trace.rs:53 | distinct strings have distinct UTF-8 encodings |
| Text.CharUtf8PrefixFree | contracts/core/src/transfer/trace.rs:53 | an encoded scalar value splits off the front of a byte string in exactly one way |
| Text.SplitAtMark | packages/types/src/transfer.rs:5-7 | two byte strings free of the separator byte `0xFF`, each followed by nothing or by a part starting with `0xFF`, split the same only when both halves are equal |
| Text.Decimal | contracts/core/src/utils/coins.rs:45 | an amount prints as a non-empty string of decimal digits with no leading zero |
| Text.DecimalInjective | contracts/core/src/utils/coins.rs:42-47 | distinct amounts print differently |
| Text.Hex | contracts/core/src/transfer/trace.rs:43-50 | a digest prints as two hex characters per byte |
| Text.FindFirst | packages/token-factory/src/helpers.rs:13 | finds the first occurrence of the separator, or reports that it is absent |
| Text.DecimalRoundTrip | contracts/core/src/host/mod.rs:50 | the decimal rendering of a number reads back as that number |
| Text.SplitOnce | packages/token-factory/src/helpers.rs:13 | `split_once` fails exactly when the separator is absent, and otherwise splits at its first occurrence so that joining back gives the input |
| Text.SplitOnceJoin | packages/token-factory/src/helpers.rs:21 | splitting `a + c + b` at `c` gives back `a` and `b` when `a` has no `c` |
| TokenFactory.ConstructDenom | packages/token-factory/src/helpers.rs:6-8 | definition: `factory/{creator}/{subdenom}`; `TokenFactory.RoundTrip` and `TokenFactory.DeconstructSpec` prove it inverse to `DeconstructDenom` for a `/`-free creator |
| TokenFactory.DeconstructDenom | packages/token-factory/src/helpers.rs:12-22 | a denom with no `/` is refused, and an accepted denom is rebuilt exactly from its creator and subdenom, with a `/`-free creator |
| TokenFactory.DeconstructCases | packages/token-factory/src/helpers.rs:13-21 | refused with no `/`, with a prefix other than `factory`, or with no second `/`; otherwise the remainder split at its first `/` |
| TokenFactory.RoundTrip | packages/token-factory/src/helpers.rs:6-8 | deconstructing a constructed denom gives back creator and subdenom whenever the creator has no `/`; the subdenom may |
| TokenFactory.DeconstructSpec | packages/token-factory/src/helpers.rs:6-22 | a denom deconstructs to `(c, s)` exactly when it is `factory/c/s` with `c` free of `/` |
| TokenFactory.SlashInCreatorBreaksRoundTrip | packages/token-factory/src/helpers.rs:21 | a creator that contains `/` is split at the wrong place |
| TokenFactory.VoucherDenomLength | contracts/core/src/transfer/trace.rs:43-50 | a voucher denom is 9 + creator + 2 × digest characters long: 113 with RIPEMD-160 and a 64-character creator, within 128, and 137 with SHA-256 |
| Traces.New | contracts/core/src/transfer/trace.rs:26-31 | a new trace keeps the base denom and is sender-source, and not `is_source`, for every endpoint |
| Traces.FromTrace | contracts/core/src/transfer/trace.rs:15-22 | dropping the local denom loses nothing: putting the same denom back gives the full trace |
| Traces.IntoFullTrace | contracts/core/src/transfer/trace.rs:35-41 | definition: the full trace with the given local denom; `Traces.FullTraceRoundTrip` proves it inverse to `FromTrace` |
| Traces.FullTraceRoundTrip | contracts/core/src/transfer/trace.rs:15-41 | dropping a full trace's denom and putting it back are inverse |
| Traces.ReceiverIsSource | contracts/core/src/transfer/trace.rs:78-84 | definition: the path is non-empty and its last hop is the sender's endpoint; see `Traces.LastHopDecides` and `Traces.AppendedHopIsSink` |
| Traces.SenderIsSource | contracts/core/src/transfer/trace.rs:68-70 | definition: the negation of `ReceiverIsSource`; see `Traces.EmptyPathIsSenderSource` |
| Traces.IsSource | packages/types/src/transfer.rs:58-64 | definition: the last hop is `localhost`, false on an empty path; `Traces.SourceDecisionsAgree` proves it equal to `ReceiverIsSource` |
| Traces.SourceDecisionsAgree | packages/types/src/transfer.rs:58-64 | the older `is_source` and the newer `receiver_is_source` agree, and `sender_is_source` is their negation, for every trace and endpoint |
| Traces.EmptyPathIsSenderSource | contracts/core/src/transfer/trace.rs:26-31 | an empty path is never the receiver's source, so a new trace is sender-source for every endpoint |
| Traces.LastHopDecides | contracts/core/src/transfer/trace.rs:78-84 | on non-empty paths with the same last hop, both decisions agree |
| Traces.EarlierHopsIrrelevant | packages/types/src/transfer.rs:58-64 | prefixing the path with hops never changes `is_source` on a non-empty path |
| Traces.AppendedHopIsSink | contracts/core/src/transfer/trace.rs:68-84 | after appending `e`, `e` is not the sender-side source and every other endpoint is |
| Traces.Hash | contracts/core/src/transfer/trace.rs:51-59 | the digest is the hash of the base denom's UTF-8 bytes followed by every hop's port and channel bytes, in path order; `DenomTrace::hash` (packages/types/src/transfer.rs:44-52) is the same |
| Traces.HashInputSnoc | contracts/core/src/transfer/trace.rs:54-57 | each hop extends the hashed bytes by its port id then its channel id |
| Traces.HashInputIsConcatenation | contracts/core/src/transfer/trace.rs:51-59 | the hashed bytes are the base denom's bytes followed by every hop's port and channel bytes, in path order |
| Traces.HashInputIsText | packages/types/src/transfer.rs:44-52 | the same bytes are the UTF-8 encoding of the base denom followed by all hop ids |
| Traces.HashIgnoresLocalDenom | contracts/core/src/transfer/trace.rs:15-22 | two full traces with the same base denom and path hash alike, whatever their local denom |
| Traces.HashInputNotInjective | packages/types/src/transfer.rs:5-7 | with no separators, two distinct traces feed the hasher the same bytes and so get the same voucher denom, whatever the hash |
| Traces.MarkedHashInputInjective | packages/types/src/transfer.rs:5-7 | with a `0xFF` byte before every port and channel id, distinct traces always feed the hasher distinct bytes |
| Traces.MarkedHashInputSeparates | packages/types/src/transfer.rs:5-7 | the two traces of `HashInputNotInjective` get distinct separated inputs |
| Accounting.CoinAttrs | contracts/core/src/transfer/helpers.rs:37-38 | each helper records exactly two attributes, `coin` then `action` |
| Accounting.MintMsg | contracts/core/src/transfer/helpers.rs:39-46 | definition: `MintTokens` of the coin's denom and amount to `to`; its balance effect is in `Accounting.HelperMovements` |
| Accounting.BurnMsg | contracts/core/src/transfer/helpers.rs:57-64 | definition: `BurnTokens` of the coin's denom and amount from `from`; see `Accounting.HelperMovements` |
| Accounting.ReleaseMsg | contracts/core/src/transfer/helpers.rs:75-81 | definition: a bank send of exactly `[coin]` to `to`; see `Accounting.HelperMovements` |
| Accounting.HelperMovements | contracts/core/src/transfer/helpers.rs:31-82 | a mint credits `to`, a burn debits `from`, a release moves the coin from the contract to `to`; no other account or denom changes |
| Accounting.Effects.Mint | contracts/core/src/transfer/helpers.rs:31-47 | appends the two attributes and one `MintTokens` of the coin to `to`, keeping what was there |
| Accounting.Effects.Burn | contracts/core/src/transfer/helpers.rs:49-65 | appends the two attributes and one `BurnTokens` of the coin from `from` |
| Accounting.Effects.Release | contracts/core/src/transfer/helpers.rs:67-82 | appends the two attributes and one bank send of exactly `[coin]` to `to` |
| Accounting.Effects.Escrow | contracts/core/src/transfer/helpers.rs:84-87 | appends the two attributes and leaves the messages alone |
| Accounting.AssertFreeDenomCreation | contracts/core/src/transfer/helpers.rs:104-114 | fails with `NonZeroTokenCreationFee` exactly when the creation fee is non-empty |
| Accounting.LegacyMint | contracts/core/src/execute.rs:116-129 | adds the two attributes and exactly one mint of the coin to `to` |
| Accounting.LegacyRelease | contracts/core/src/execute.rs:173-181 | adds the two attributes and exactly one bank send of the coin to `to` |
| Accounting.CreateAndMint | contracts/core/src/execute.rs:93-114 | refused exactly when creation costs a fee; otherwise `CreateDenom` then a mint of `factory/{creator}/{subdenom}` |
| Accounting.CreateAndMintDenom | contracts/core/src/execute.rs:107-113 | with a `/`-free creator, the minted denom deconstructs to that creator and the created subdenom |
| State.Store.constructor | contracts/core/src/execute.rs:15-20 | instantiation stores the code id and default timeout, with empty maps and no handler |
| Controller.TraceOf | contracts/core/src/controller/mod.rs:227-231 | definition: the stored trace, else `Traces.New` of the denom; see `Controller.UnstoredIsSenderSource` |
| Controller.ContainsDenom | contracts/core/src/controller/mod.rs:233-235 | definition: some recorded full trace has this denom; see `Controller.ContainsFull` |
| Controller.ShouldRefund | contracts/core/src/controller/mod.rs:244-255 | definition by cases on the acknowledgement; see `Controller.ShouldRefundSpec` |
| Controller.UnstoredIsSenderSource | contracts/core/src/controller/mod.rs:227-231 | `trace_of` a denom without stored trace is a new trace, sender-source for every endpoint |
| Controller.Localhost | contracts/core/src/controller/mod.rs:237-242 | found exactly when the connection has a channel; the endpoint is this port and that channel |
| Controller.ShouldRefundSpec | contracts/core/src/controller/mod.rs:244-255 | refund exactly unless acknowledged with results; always on timeout |
| Controller.AfterCallback | contracts/core/src/controller/mod.rs:214-220 | always succeeds, recording the callback's success |
| Controller.DestFee | contracts/core/src/controller/mod.rs:72-79 | the destination fee adds its denom's trace if absent and sends nothing |
| Controller.SrcFee | contracts/core/src/controller/mod.rs:87-89 | the source fee only adds to the expected funds |
| Controller.TransferStep | contracts/core/src/controller/mod.rs:38-62 | one transfer escrows or burns, records the trace and adds the coin, keeping the expected ledger sorted |
| Controller.Transfers | contracts/core/src/controller/mod.rs:38-63 | the loop over all actions keeps the expected ledger sorted; its contents are in `Controller.TransfersOwed`, `Controller.TransfersTraces`, `Controller.TransfersMsgs` |
| Controller.ActSpec | contracts/core/src/controller/mod.rs:17-122 | definition of `act` on values: channel lookup, gathering, funds check, then the burns and the packet; its properties are `Controller.ActFunds` and `Controller.ActSends` |
| Controller.TransfersErrSticks | contracts/core/src/controller/mod.rs:61 | an overflow on a prefix of the actions is the loop's result |
| Controller.TransfersLoop | contracts/core/src/controller/mod.rs:38-63 | the loop's messages, attributes, traces and expected ledger are those of the loop specification, or its overflow |
| Controller.FeesStep | contracts/core/src/controller/mod.rs:72-89 | the fee steps as specified, or their overflow |
| Controller.Act | contracts/core/src/controller/mod.rs:17-122 | the result is `ActSpec` of the storage and inputs |
| Controller.TransfersOwed | contracts/core/src/controller/mod.rs:38-63 | the loop's expected ledger is the transfers added up from nothing, failing only by overflow |
| Controller.GatherOwed | contracts/core/src/controller/mod.rs:26-89 | the expected ledger is transfers, destination fee and source fee added up, failing only by overflow |
| Controller.ActFunds | contracts/core/src/controller/mod.rs:91-98 | `act` succeeds exactly when the channel exists and the funds stand for each denom's total; `FundsMismatch` exactly when they differ and nothing overflows, reporting both ledgers |
| Controller.ContainsFull | contracts/core/src/controller/mod.rs:233-235 | `contains_denom` on recorded traces is membership of the denom |
| Controller.TransfersTraces | contracts/core/src/controller/mod.rs:57-59 | the loop records one trace per transferred denom, at its first appearance |
| Controller.TransfersMsgs | contracts/core/src/controller/mod.rs:47-55 | the loop emits exactly one burn from the contract per transfer that is not sender-source; escrows emit nothing |
| Controller.GatherTracesMsgs | contracts/core/src/controller/mod.rs:72-76 | the packet traces are those of the transferred denoms then the destination-fee denom, each once |
| Controller.ActSends | contracts/core/src/controller/mod.rs:100-121 | an accepted `act` sends the burns then one packet on the connection's channel with sender, actions unchanged, fee and distinct traces covering exactly the transferred and destination-fee denoms; the timeout is the given one or the default seconds after the block time |
| Controller.RefundEffect | contracts/core/src/controller/mod.rs:257-271 | definition: a release when the trace is sender-source, else a mint, to `to`; see `Controller.TransfersComeBack` |
| Controller.Callback | contracts/core/src/controller/mod.rs:200-211 | definition: the reply-always `PacketCallback` to the sender with channel, sequence and acknowledgement; see `Controller.CompleteOutcome` |
| Controller.CompleteSpec | contracts/core/src/controller/mod.rs:124-212 | definition of `packet_lifecycle_complete` on values; its properties are `Controller.CompleteOutcome` and `Controller.DoneDelta` |
| Controller.Refund | contracts/core/src/controller/mod.rs:257-271 | releases when the trace is sender-source, else mints, to the given account |
| Controller.RefundLoop | contracts/core/src/controller/mod.rs:141-162 | refunds every transfer to the sender, in order |
| Controller.Settle | contracts/core/src/controller/mod.rs:140-190 | the pushed messages and attributes are the settlement's specification |
| Controller.PacketLifecycleComplete | contracts/core/src/controller/mod.rs:124-212 | the response is `CompleteSpec` of the stored traces, the packet, the ack and the relayer |
| Controller.CompleteOutcome | contracts/core/src/controller/mod.rs:164-211 | with results only the source fee is paid; with an error the transfers are refunded too; on timeout also the destination fee; the sender's callback comes last, reply-always |
| Controller.TransfersComeBack | contracts/core/src/controller/mod.rs:266-270 | a transfer's burn in `act` and its refund in the settlement cancel out for every account |
| Controller.FeeComesOut | contracts/core/src/controller/mod.rs:180-190 | a fee burned and then paid out ends with the payee and leaves the contract |
| Controller.PartsComeBack | contracts/core/src/controller/mod.rs:257-271 | over a refunded packet, transfers and destination fee come back to the sender and the source fee goes to the relayer |
| Controller.DepositAmount | contracts/core/src/controller/mod.rs:91-98 | with bank-normalised funds, an accepted `act` received each denom's transfers plus both fees |
| Controller.SentDelta | contracts/core/src/controller/mod.rs:109-121 | only the burns of `act` move tokens; the packet moves none on this chain |
| Controller.DoneDelta | contracts/core/src/controller/mod.rs:192-211 | a refunding settlement moves exactly the refunds, the destination fee on timeout, and the source fee |
| Controller.SettlementTotal | contracts/core/src/controller/mod.rs:124-197 | the three stages of a refunded packet's life expressed as the amounts each moves |
| Controller.SettlementBalances | contracts/core/src/controller/mod.rs:164-190 | over a refunded packet, every account ends as it started, except that the relayer is paid by the sender and an error ack forfeits the destination fee; as written, any fee paid in a voucher is also left in the contract |
| Controller.SettlementBalancesCorrected | contracts/core/src/controller/mod.rs:72-89 | with voucher fees burned, a timed-out packet leaves every account as it was, except that the sender has paid the relayer |
| Controller.VoucherFeeMintedTwice | contracts/core/src/controller/mod.rs:87-89 | a source fee of 100 vouchers: after timeout the contract still holds them while 100 new ones were minted to the relayer |
| Controller.TestAct | contracts/core/src/controller/mod.rs:392-409 | the test's `act` is accepted exactly on 12345 uatom and 23456 uosmo, otherwise refused with `FundsMismatch` |
| Controller.AssertingFunds | contracts/core/src/controller/mod.rs:284-411 | the `asserting_funds` test: no funds, uatom alone, wrong uosmo and an extra ujuno are refused with `FundsMismatch`; the exact funds are accepted |
| LegacyExecute.LegacyActSpec | contracts/core/src/execute.rs:22-91 | definition of the older `act` on values: transfers, funds check, channel check, then the burns and the packet; see `LegacyExecute.LegacyFunds` and `LegacyExecute.LegacySends` |
| LegacyExecute.LegacyErrSticks | contracts/core/src/execute.rs:59 | an overflow on a prefix is the older loop's result |
| LegacyExecute.LegacyLoop | contracts/core/src/execute.rs:36-61 | the older loop's effects, traces and ledger are its specification's, or its overflow |
| LegacyExecute.LegacyAct | contracts/core/src/execute.rs:22-91 | the result is `LegacyActSpec` of the storage and inputs |
| LegacyExecute.LegacyOwed | contracts/core/src/execute.rs:36-61 | the older ledger is the transfers added up, failing only by overflow |
| LegacyExecute.LegacyFunds | contracts/core/src/execute.rs:63-68 | succeeds exactly with a channel and funds matching each denom's transfer total; `FundsMismatch` exactly when they differ and nothing overflows, checked before the channel |
| LegacyExecute.LegacyShape | contracts/core/src/execute.rs:42-57 | one trace and one burn from the sender per transfer of a denom with a stored trace |
| LegacyExecute.LegacySends | contracts/core/src/execute.rs:78-90 | sends the burns then one packet on `ACTIVE_CHANNELS[connection_id]` carrying the actions unchanged and the default or given timeout; first attribute `action = act` |
| LegacyExecute.LegacyRepeatsTraces | contracts/core/src/execute.rs:44-49 | two transfers of one voucher put its trace in the packet twice |
| Handshake.ValidateOrderAndVersion | contracts/core/src/handshake.rs:54-83 | passes exactly on unordered, `ics999-1` and a matching counterparty version; the order is reported first, then the version |
| Handshake.AssertUniqueChannel | contracts/core/src/handshake.rs:85-93 | fails with `ChannelExists` exactly when the connection has a channel |
| Handshake.OpenInit | contracts/core/src/handshake.rs:10-24 | succeeds with no version override exactly on a valid order and version and a connection without a channel |
| Handshake.OpenTry | contracts/core/src/handshake.rs:26-36 | the same, with the counterparty version required to match as well |
| Handshake.ConnectSpec | contracts/core/src/handshake.rs:38-45 | on validation the table maps the connection to the channel, all other entries untouched |
| Handshake.OpenConnect | contracts/core/src/handshake.rs:38-52 | writes the channel only after validation and nothing else in storage; the four attributes |
| Handshake.Close | contracts/core/src/handshake.rs:95-118 | CloseInit fails with `UnexpectedChannelClosure`; CloseConfirm succeeds with an empty response |
| Handshake.ConnectedConnectionRefusesNewChannels | contracts/core/src/handshake.rs:14-17 | after a connect, every opening step on that connection is refused |
| Handshake.ConnectOverwrites | contracts/core/src/ibc.rs:35-49 | `open_connect` replaces a connection's existing channel |
| Handshake.ValidationComesFirst | contracts/core/src/ibc.rs:10-33 | a wrong order or version is reported even on a connection that already has a channel |
| Contract.ChannelOpen | contracts/core/src/contract.rs:107-122 | opening succeeds exactly on a valid channel and a free connection, plus a matching counterparty version for `OpenTry`, with no version override |
| Contract.ChannelConnect | contracts/core/src/contract.rs:124-131 | the older `open_connect`, whose first attribute is `action = open_connect`; only the channel table changes |
| HostHandler.Reverse | contracts/core/src/handler.rs:75-76 | reversal puts the last element first, index by index |
| HostHandler.PopsInOrder | contracts/core/src/handler.rs:106-107 | popping the reversed actions yields the first and leaves the rest reversed |
| HostHandler.DefaultSalt | contracts/core/src/handler.rs:296-301 | the salt is the UTF-8 bytes of connection id and controller, concatenated |
| HostHandler.DefaultSaltCollides | contracts/core/src/handler.rs:292-295 | two distinct (connection, controller) pairs get the same default salt |
| HostHandler.MarkedSaltUnique | contracts/core/src/handler.rs:292-295 | with a `0xFF` byte between connection id and controller, the salt determines the pair |
| HostHandler.MarkedSaltSeparates | contracts/core/src/handler.rs:292-295 | the two pairs of `DefaultSaltCollides` get distinct separated salts |
| HostHandler.HandlerAttrs | contracts/core/src/handler.rs:282-289 | definition: connection id, controller, host or `null`, and the number of pending actions |
| HostHandler.Created | contracts/core/src/host/handler.rs:70-93 | definition: the account looked up, the actions reversed, no active action and no results; see `HostHandler.CreateRunsFirstAction` |
| HostHandler.NextAction | contracts/core/src/handler.rs:101-238 | definition of one step on values: queries answered in place, then the next action performed, or the results returned when the queue is dry; its properties are the `HostHandler.NextAction*` lemmas |
| HostHandler.Perform | contracts/core/src/host/handler.rs:128-237 | definition of a non-query action: Transfer checks then fails, RegisterAccount derives and records the account, Execute needs one; see `HostHandler.NextActionRefusals` and `HostHandler.RegisterRecordsAccount` |
| HostHandler.ResultOf | contracts/core/src/handler.rs:241-280 | a reply becomes the result of its action kind: an address for RegisterAccount, the data for Execute; missing or unparsable data fails |
| HostHandler.Handler.Create | contracts/core/src/host/handler.rs:70-93 | the actions reversed, traces kept, no active action and no results, the account looked up |
| HostHandler.Handler.Load | contracts/core/src/handler.rs:88-90 | the handler is restored as saved |
| HostHandler.Handler.HandleNextAction | contracts/core/src/handler.rs:101-238 | one step: result, handler, account registry and saved handler are those of `NextAction`; on error storage is unchanged |
| HostHandler.Handler.PerformAction | contracts/core/src/host/handler.rs:128-237 | a popped Transfer, RegisterAccount or Execute is checked and dispatched as specified |
| HostHandler.Handler.HandleResult | contracts/core/src/host/handler.rs:267-306 | appends exactly the reply's result, or fails and returns its error |
| HostHandler.RunQuery | contracts/core/src/host/handler.rs:239-251 | a query is answered exactly when the querier answers, recording its answer; otherwise `QueryFailed`, `SmartQueryFailed` or the querier's error |
| HostHandler.QueryStep | contracts/core/src/handler.rs:129-161 | an answered query records its result and goes straight on; an unanswered one fails the step |
| HostHandler.NextActionQueue | contracts/core/src/handler.rs:106-161 | a step pops exactly its answered queries plus the dispatched action, appends one result per query and keeps earlier results |
| HostHandler.NextActionSaves | contracts/core/src/handler.rs:112-118 | a saved handler waits for the one reply-on-success sub-message it sent; with the queue dry the handler is removed and the results are the data |
| HostHandler.NextActionAccounts | contracts/core/src/handler.rs:163-195 | the registry changes only by the controller's new account, and only if it had none |
| HostHandler.NextActionRefusals | contracts/core/src/host/handler.rs:133-228 | a second account, an Execute without account, a Transfer without a trace or without a recipient and account are refused; every Transfer fails |
| HostHandler.RegisterRecordsAccount | contracts/core/src/host/handler.rs:176-220 | a registration records and instantiates at the address derived from the (default) salt |
| HostHandler.RegisterOnceAcrossPackets | contracts/core/src/handler.rs:166-172 | a controller that has an account cannot register again in a later packet |
| HostHandler.RegisterOnceInPacket | contracts/core/src/host/handler.rs:179-185 | nor twice in one packet |
| HostHandler.CreateRunsFirstAction | contracts/core/src/handler.rs:65-86 | starting from `create`, a first action that is not a query is the one dispatched, with the rest still stacked in order and no results yet |
| Host.ReceivedActions | contracts/core/src/host/mod.rs:34-42 | with a destination fee, exactly one transfer of it to the relayer is appended; otherwise the actions are unchanged |
| Host.PacketReceive | contracts/core/src/host/mod.rs:17-65 | fails exactly on an unknown channel, reporting this port and the channel; otherwise one reply-always self-call `Handle` and no acknowledgement |
| Host.Handle | contracts/core/src/host/mod.rs:67-78 | creates the handler and runs its first step; only the account registry and the saved handler change |
| Host.AfterActionSpec | contracts/core/src/host/mod.rs:80-88 | definition: not found without a handler, else the reply's result appended and the next step run; see `Host.AfterActionKeepsResults` |
| Host.AfterAction | contracts/core/src/host/mod.rs:80-88 | loads the handler, records the reply, runs the next step; with no handler, not found; only the account registry and the saved handler change |
| Host.AfterAllActions | contracts/core/src/host/mod.rs:90-116 | success becomes a results acknowledgement, failure an error acknowledgement, as the response data; missing or unparsable data fails |
| Host.SavedHandlerResumable | contracts/core/src/host/mod.rs:76-87 | every step leaves a handler with an active non-query action, which is what `handle_result` needs |
| Host.AfterActionKeepsResults | contracts/core/src/host/mod.rs:85-87 | a resumed step keeps the earlier results followed by the reply's |
| Host.FeeTransferRunsLast | contracts/core/src/host/mod.rs:36-42 | the destination-fee transfer runs after all of the packet's actions |
| Contract.Decoded | contracts/core/src/contract.rs:47-51 | a self-call decodes to `Handle` with the payload's fields |
| Contract.ActGuard | contracts/core/src/contract.rs:41-43 | refuses exactly the empty queue, with `EmptyActionQueue` |
| Contract.HandleGuard | contracts/core/src/contract.rs:52-54 | admits exactly the contract itself, else `Unauthorized` |
| Contract.Execute | contracts/core/src/contract.rs:28-59 | `Act` is the guarded older `act`, storage unchanged; `Handle` from another sender is `Unauthorized`; otherwise the first handler step; channels, traces and configuration never change |
| Contract.Reply | contracts/core/src/contract.rs:61-73 | ids 1, 2 and 3 route to `after_action`, `after_all_actions` and `after_callback`; any other id is an error; channels, traces and configuration never change |
| Contract.PacketAck | contracts/core/src/contract.rs:151-158 | settles with the acknowledgement; the callback is the last message |
| Contract.PacketTimeout | contracts/core/src/contract.rs:160-167 | settles with no acknowledgement; the callback is the last message |
| Contract.DenomHash | contracts/core/src/contract.rs:79-81 | the digest of the base denom's bytes followed by every hop's port and channel bytes |
| Contract.ActSendsItsQueue | contracts/core/src/contract.rs:36-46 | an accepted `Act` sends, last, a packet on the connection's channel with the non-empty queue asked for and its sender |
| Contract.ReceivedPacketIsAuthorized | contracts/core/src/host/mod.rs:51-64 | the dispatched self-call passes the `Handle` guard, as `Handle` of the packet's sender with the fee-extended queue |

## Left out

- Serialization: `to_binary` and `from_slice` of packets, acknowledgements and messages are the identity on datatypes and never fail. A malformed packet or acknowledgement is not modelled.
- Host functions (queries, `instantiate2_address`, `addr_*`, the `parse_*_response_data` functions, `connection_of_channel`, `query_port`) are opaque `Platform` fields. A failing `query_wasm_code_info` or address conversion has no error of its own; it is folded into `instantiate2Address` returning nothing.
- RIPEMD-160 and SHA-256 are not implemented. The hash is a parameter of `Traces.Hash`.
- HostHandler.DefaultSalt: models the raw concatenation of `handler.rs`. The newer revision hashes the same bytes with SHA-256 (`host/handler.rs:187-191`), which is not modelled.
- Transfers on the receiving chain. The older handler stops a Transfer at a `todo!()` (`handler.rs:122-127`). The newer one (`host/handler.rs:156-164`) releases the coin with a bank send when the trace is source for `packet.dest`, and otherwise reaches a `todo!()` (`host/handler.rs:172`). The release's reply then reaches the `todo!()` of `handle_result` (`host/handler.rs:277`), so every Transfer fails either way, only with a different error. The model drops the `is_source` test and the release: after the trace, recipient and address checks, a Transfer ends in an `Unimplemented` error. `ResultOf` returns the same error for a Transfer reply.
- Transaction rollback and sub-message semantics belong to the chain. An erroring step is modelled as leaving storage unchanged. Reply-on-success and reply-always are recorded on the sub-messages rather than executed.
- The timeout of `act` is block time plus seconds, in unbounded nanoseconds. The u64 overflow of `plus_seconds` is not modelled.
- Controller.SettlementBalances: with an error acknowledgement, it states the balance only for accounts other than the contract. The contract's own leftover depends on which fees were vouchers and is covered by `Controller.VoucherFeeMintedTwice`.
- Controller.DepositAmount: assumes the funds arrive sorted with one coin per denom, as the bank delivers them. `From<Vec<Coin>>` itself is unchecked (`Ledger.CollectIsUnchecked`).
- Contract.Reply and Host.AfterAction: require a successful reply for `AFTER_ACTION`. The source unwraps it because that sub-message replies on success only.
- Event attributes are modelled as strings the way `into_attributes` builds them. The newer two-attribute form of `host/handler.rs:257-259` is not modelled. An instantiate label is not carried.
- `Coin`'s `Display` is modelled as the decimal amount followed by the denom. `bool::to_string` is modelled as `true`/`false`.
- The `burn`, `mint` and `refund` call sites of `controller/mod.rs` pass arguments in an order that the helpers of `transfer/helpers.rs` do not accept. The model uses what the comments state: burn from the contract, mint to the refunded account.
- Registration through a custom account factory does not appear in the handler code and is not modelled.
- `contracts/core/src/query.rs` (paginated storage reads), `contracts/core/src/entries.rs` (`todo!()` stubs), the `cw2` version record and the queries other than `DenomHash` are not part of this model.
- Persisting an older handler: the older `Handler` has no `traces` field and is stored with an empty one.

## Findings

| source | as written | input that shows it | evidently intended | confidence | as-written member | corrected member |
|---|---|---|---|---|---|---|
| contracts/core/src/controller/mod.rs:87-89 | `act` adds the relayer fees to the expected funds but never burns a fee paid in a voucher. The settlement later mints the fee to the relayer (source fee) or back to the sender (destination fee on timeout) with `refund` (mod.rs:164-190, 257-271). | A source fee of 100 `ibc/v`, where `ibc/v` is stored as a voucher whose last hop is this chain. Actions: one `RegisterAccount`. Packet timed out. | A fee paid in a voucher is burned from the contract like a transferred voucher, so that the settlement's mint restores the supply instead of doubling it. | not executed | Controller.VoucherFeeMintedTwice | Controller.SettlementBalancesCorrected |
| contracts/core/src/handler.rs:292-301 | `default_salt` concatenates the connection id and controller bytes with nothing between them, although its comment promises a unique salt per pair. The newer `utils/mod.rs:14-22` hashes the same unseparated stream with SHA-256, so it collides on the same pairs. | (`connection-1`, `1abc`) and (`connection-11`, `abc`) both give the bytes of `connection-11abc`. | A separator, or a length prefix, between the two parts, so that the salt determines the pair. | not executed | HostHandler.DefaultSaltCollides | HostHandler.MarkedSaltUnique |
| packages/types/src/transfer.rs:5-7 | The hash behind the voucher denom (`transfer.rs:44-52`, `transfer/trace.rs:51-59`) feeds base denom, port ids and channel ids with nothing between them, although the type promises one voucher denom per token and path. | `uatomtransfer` via (`channel-0`, `x`) and `uatom` via (`transferchannel-0`, `x`) both feed `uatomtransferchannel-0x`. | A separator between the fields, so that distinct traces feed distinct bytes and only a hash collision can merge them. | not executed | Traces.HashInputNotInjective | Traces.MarkedHashInputInjective |

Notes on the findings:
- `Controller.SettlementBalances` states the general as-written balance, including the leftover voucher fees.
- `Controller.ActCorrected` is the corrected `act`; `Controller.SettlementBalancesCorrected` proves the intended balance for it.
- `Controller.Act` keeps the code as written. The contract's `execute` entry point routes `Act` to the older `act` of `execute.rs`, which has no relayer fees, so no entry point reaches the flaw.
- `HostHandler.DefaultSalt` and `Traces.Hash` keep the code as written, and the rest of the model uses them. `HostHandler.MarkedSalt` and `Traces.MarkedHashInput` are the separated encodings. `Text.Utf8Injective` and `Text.SplitAtMark` carry their proofs: UTF-8 never produces the byte `0xFF`.
