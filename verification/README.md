# Match verifier pallet — Dafny model

This project models the `verifier` pallet of an energy-trading parachain. The
pallet has one dispatchable, `verify_match`. It takes the flattened fields of
one bid and one offer and checks that both halves describe the same trade. If
they do, it marks the trade id as valid in the `ValidTrades` storage map and
deposits a `MatchVerified` event.

Two modules:

- `Verifier` (`verifier.dfy`) holds the pallet itself:
  - the `Bid` and `Offer` records and the `Origin`, `Event` and error vocabulary;
  - the registry as a `map<u32, bool>` read with `ValueQuery` semantics (an absent key reads `false`);
  - the event log as a `seq<Event>`;
  - `VerifyMatch`, a pure step from one state to the next that returns a `Dispatched(result, post)` pair.
- `VerifierSequence` (`sequence.dfy`) models the host runtime applying calls
  one after another. It proves what a whole run does to the registry and to the log.

The source fails in two ways. `ensure_signed` returns an error, and `assert_eq!`
panics. Both become `Err(..)` results here. Each error is named after the check
that failed: `BadOrigin`, `TradeIdMismatch`, `MarketMismatch` or `AssetMismatch`.
This is faithful because the storage write and the event deposit come after
every check. A failed call therefore leaves the state it was given unchanged.

Two details of the code shape the model:

- `verify_match` rejects every origin that is not signed
  (`pallets/verifier/src/lib.rs:90`). The model does the same with
  `Origin = Signed(who) | Root | Unsigned`.
- `verify_match` always builds the bid with `Some(..)` (lines 93-94), so an
  absent market or asset id never reaches the checks. `CheckMatch` still
  handles absence for any `Bid`. `VerifyMatch` states that each of those
  checks is plain equality of two byte sequences.

## Model

| member | source | states |
|---|---|---|
| `Verifier.EnsureSigned` | pallets/verifier/src/lib.rs:90 | Only a signed origin passes; every other origin fails with `BadOrigin`. |
| `Verifier.CheckMatch` | pallets/verifier/src/lib.rs:108-110 | Passes exactly when the bid and offer are the same trade: equal ids, and a present bid market id and asset id each equal to the offer's. The first failing comparison names the error: id mismatch whenever the ids differ; market mismatch when the ids agree but the bid market is absent or different; asset mismatch only when both earlier checks pass. |
| `Verifier.Insert` | pallets/verifier/src/lib.rs:113 | A write to the `ValidTrades` map declared at line 54. After inserting a value under a key, that key reads the value, every other key reads as before, and the event log is untouched. |
| `Verifier.DepositEvent` | pallets/verifier/src/lib.rs:114 | Depositing adds exactly one event at the end of the log; the earlier events and the registry are unchanged. |
| `Verifier.VerifyMatch` | pallets/verifier/src/lib.rs:75-116 | Succeeds exactly when the origin is signed and the trade ids, market ids and asset ids are equal. A failure reports the first check that failed and returns the state unchanged. A success makes `bid_uuid` read true and appends exactly `MatchVerified(bid_uuid, offer_uuid)` to the log. In every case no other key changes and no key goes from true to false. |
| `Verifier.AbsentKeyReadsFalse` | pallets/verifier/src/lib.rs:53-54 | A trade id that was never inserted reads as not verified. The read is `ValidTrade`, the model of the `valid_trades` getter with `ValueQuery` semantics. |
| `Verifier.RepeatIsIdempotent` | pallets/verifier/src/lib.rs:113-114 | Repeating a successful call succeeds again and leaves the registry identical to the first call's result. The log grows by one more identical `MatchVerified`. |
| `Verifier.UncomparedFieldsIrrelevant` | pallets/verifier/src/lib.rs:91-110 | The outcome and the next state do not change when the energy amounts, time slots or the offer's energy type change. |
| `Verifier.ScenarioMatch` | pallets/verifier/src/lib.rs:108-114 | From empty storage, bid and offer for trade 1, market "M", asset "A" succeed. Trade 1 then reads true, and the log is `[MatchVerified(1, 1)]`. |
| `Verifier.ScenarioIdMismatch` | pallets/verifier/src/lib.rs:108 | The same bid against an offer for trade 2 fails with `TradeIdMismatch`. Trades 1 and 2 both read false, and the log stays empty. |
| `VerifierSequence.ApplyResult` | pallets/verifier/src/lib.rs:90-110 | A call succeeds in any state exactly when it is accepted (signed, with its three ids equal). An accepted call marks its trade; a rejected call leaves the state unchanged. |
| `VerifierSequence.Run` | pallets/verifier/src/lib.rs:113-114 | Over any sequence of calls, the event log only grows by appending, and a trade that read true before still reads true afterwards. |
| `VerifierSequence.RunRegistry` | pallets/verifier/src/lib.rs:113 | After a run, a trade reads true exactly when it read true before or some accepted call in the run named it. |
| `VerifierSequence.RunEvents` | pallets/verifier/src/lib.rs:114 | After a run, the log is the earlier log followed by one `MatchVerified` per accepted call, in call order. |
| `VerifierSequence.EmittedCountsAccepted` | pallets/verifier/src/lib.rs:114 | A run deposits as many events as it has accepted calls. Every deposited event is a `MatchVerified` with equal ids. |
| `VerifierSequence.ApplyPreservesAudit` | pallets/verifier/src/lib.rs:113-114 | One call keeps the registry and the log in agreement. No entry is false, and every verified trade has a `MatchVerified(id, id)`. Every `MatchVerified` has equal ids and names a verified trade. No `TradeIdStored` is ever logged. |
| `VerifierSequence.RunPreservesAudit` | pallets/verifier/src/lib.rs:113-114 | A whole run keeps that agreement between registry and log. |
| `VerifierSequence.FromGenesisAudited` | pallets/verifier/src/lib.rs:52-62 | Every state reachable from empty storage and an empty log has the registry and the log in agreement. |
| `VerifierSequence.OrderIndependent` | pallets/verifier/src/lib.rs:113 | Any reordering of the same calls leaves every trade id reading the same. |
| `VerifierSequence.OtherIdsIndependent` | pallets/verifier/src/lib.rs:113 | Calls that name other trade ids never change how a given trade id reads. |

## Left out

- Framework plumbing is not modelled: the pallet macros, `Config`, `Hooks` and the `Store` trait. They have no behaviour of their own.
- The weight annotation on `verify_match` is not modelled, because it is fee metering.
- SCALE encoding and decoding are not modelled. The `Blake2_128Concat` key hashing is not modelled either. Storage is a plain map.
- The internals of `ensure_signed` are not modelled. Account identities are an opaque `nat` inside `Signed`, and the pallet never uses them.
- `assert_eq!` panics are not modelled as aborting the runtime. Each is a failure result that leaves the state unchanged, which is what the caller observes once the host discards the failed call.
- The event log is every event deposited so far. The host runtime clears its event storage at the start of each block, while `ValidTrades` persists. That per-block clearing is not modelled, so `Audited` and `RunEvents` describe the cumulative history of deposits, not what the chain holds after a block boundary.
- The `TradeIdStored` event is declared but never deposited. It appears in `Event` only so that the audit invariant can state that it is never logged.
- The `NoneValue` error is declared but never returned, so it is not modelled.
- The `mock`, `tests` and `benchmarking` modules are not part of this model. They are test harness code.
- No integer arithmetic happens on `u32` values, so no wrap-around is modelled. `u32` and `u8` are bounded newtypes.
