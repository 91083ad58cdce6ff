# Time-locked cw20 disbursement contract, modelled in Dafny

This project models `src/contract.rs`, a CosmWasm contract that holds one
cumulative deposit. It pays the deposit out to four fixed recipients over
four tranches. The tranches unlock 6, 12, 18 and 24 "months" (30-day months)
after instantiation. Anyone may trigger a disbursement. Each tranche is paid
at most once, which the `DISBURSEMENT_TRACKER` map enforces.

The model has three modules:

- `TimelockLogic` (`timelock_logic.dfy`) holds the data and the pure steps:
  - the `State` record and the tracker (`map<u64, bool>`);
  - `Instantiate`, the schedule built from the block time;
  - `Deposit`, the rule of `try_receive`;
  - `Walk` and `Disbursement`, the tranche loop of `try_disburse` and its outcome;
  - `Step`, one `execute` call, and `Settlements`, `FinalState` and `Sent`, sequences of calls;
  - `Inv`, the invariant the contract keeps.
- `TimelockContract` (`timelock_contract.dfy`) holds the storage as a class, `Contract`:
  - its fields are `state` (the `STATE` item) and `tracker` (the `DISBURSEMENT_TRACKER` map);
  - the methods `TryReceive`, `TryDisburse` and `Execute` update these fields in place, as the Rust code does;
  - `TryDisburse` keeps the source's nested loops: over the unlock times, and over the recipients inside it;
  - each method is proved equal to the pure step that specifies it.
  - The ghost field `disbursed` adds up every amount sent so far, so that solvency can be stated.
- `TimelockLemmas` (`timelock_lemmas.dfy`) proves the properties:
  - the exact payout formula and the order of the sends;
  - no payout before the first unlock time;
  - each tranche settles exactly once, within one call and across any sequence of calls;
  - a second call at the same time does nothing;
  - the invariant is kept;
  - solvency: the total ever sent never exceeds the cumulative deposit.

The inputs from the host are parameters:
- the block time `now` (`u64` seconds);
- the caller `info.sender`;
- the deposited amount.

The owner check compares the sender string with the stored owner string.
Integer widths are explicit:
- times are `u64` and a schedule that does not fit fails;
- the deposit is `Uint128`, whose addition panics on overflow (modelled as `Err(Overflow)`);
- the payout is floor division, `deposit / 4 / len(unlock_times)`.

Points of the code that shape the model:
- The source checks `last_disburse < t` as well as the tracker:
  - `Due` keeps both tests;
  - `DisbursementSettles` shows which tranches pay.
- Re-instantiation is not rejected inside `instantiate`: the source saves the state unconditionally.
- The owner check reads `info.sender`, not the `sender` field of the cw20 receive message:
  - `Cw20ReceiveMsg.sender` is in the model;
  - it is ignored, as the source ignores it.
- Every settled tranche pays `4 · (deposit / 16)`. At a fixed deposit, the four tranches together pay at most the deposit.
  - `NoOverspend` and `RunWithinDeposit` prove that the total sent stays within the cumulative deposit over any history.
  - This holds even when deposits arrive between disbursements.

## Model

| member | source | states |
|---|---|---|
| TimelockLogic.Instantiate | src/contract.rs:26-60 | Succeeds iff `now + 24 months` fits in `u64`, else Overflow. On success: owner is `owner_address`; deposit and `last_disburse` are 0. There are four recipients and four zero allocations. `unlock_times[k] = now + (k+1)·15552000`, strictly increasing and all after `now`. |
| TimelockContract.Contract.constructor | src/contract.rs:33-57 | The saved state is the instantiated one, the tracker is empty, and the invariant holds. |
| TimelockLemmas.InstantiateSafe | src/contract.rs:33-57 | The instantiated state with an empty tracker satisfies `Inv`. Over any later sequence of calls, the total sent never exceeds the final deposit. |
| TimelockLogic.Deposit | src/contract.rs:81-92 | Unauthorized iff the sender is not the owner. Overflow iff the owner's deposit plus the amount exceeds 2^128−1. Otherwise the new state equals the old one with `deposit + amount`. |
| TimelockContract.Contract.TryReceive | src/contract.rs:75-95 | The result and the new state are those of `Deposit`. On either error the state is unchanged. The tracker and the amount disbursed never change. The invariant is kept. |
| TimelockLemmas.DepositKeepsInv | src/contract.rs:90-92 | A successful deposit keeps `Inv`, never lowers the per-tranche payout, and keeps the amount already sent covered. |
| TimelockContract.Contract.TryDisburse | src/contract.rs:97-135 | The loop emits exactly the sends of `Disbursement` and leaves exactly its state and tracker. The ghost total grows by the sum of the sends and stays ≤ the deposit. The invariant is kept. |
| TimelockContract.Contract.Execute | src/contract.rs:62-73 | A receive message goes to `TryReceive` and a disburse message to `TryDisburse`. The result and the new storage are those of `Step`. The ghost total grows by the sum of the returned sends. |
| TimelockLemmas.DisbursementSends | src/contract.rs:106-116 | Every send is `Send(recipients[k mod len(recipients)], deposit / 4 / len(unlock_times), "token")`. There are `len(recipients) · settled` sends, one block in recipient order per settled tranche. |
| TimelockLemmas.WalkSends | src/contract.rs:102-122 | The walk's sends are the block of per-recipient payouts repeated once per settled tranche, in walk order. |
| TimelockLemmas.DisbursementSettles | src/contract.rs:102-105 | On a strictly increasing schedule, tranche `t` is settled iff `t` is an unlock time, `now ≥ t`, `last_disburse < t` and `t` is not in the tracker. The settled tranches come in ascending order. |
| TimelockLemmas.WalkExact | src/contract.rs:102-122 | On a strictly increasing schedule the walk settles exactly the due unlock times, and each one adds one tracker entry. |
| TimelockLemmas.WalkOrdered | src/contract.rs:102-122 | On a strictly increasing schedule the settled tranches are strictly increasing. |
| TimelockLemmas.WalkGrows | src/contract.rs:102-122 | Old tracker entries are kept with their values. Every new entry is `true` and belongs to a settled tranche. A settled tranche is an unlock time that is reached, later than `last_disburse` and was not tracked before. |
| TimelockLemmas.WalkNothingDue | src/contract.rs:102-103 | When no unlock time is both reached and later than `last_disburse`, the walk sends nothing and leaves the tracker unchanged. |
| TimelockLemmas.SettledNeverRepaid | src/contract.rs:103-119 | An unlock time already in the tracker is never settled (paid) again; so every tranche a disbursement settles was absent from the tracker before. |
| TimelockLemmas.DisbursementTracker | src/contract.rs:105-119 | The tracker only grows: old entries are kept, and the new keys are exactly the settled tranches, each mapped to `true`. |
| TimelockLemmas.DisbursementState | src/contract.rs:124-130 | Sends are emitted iff some tranche settles. Then `last_disburse` becomes `now`; otherwise the state is unchanged. No other field changes. |
| TimelockLemmas.NoEarlyPayout | src/contract.rs:102-134 | With `now` before the first unlock time, the call emits no sends and leaves the state and the tracker unchanged. |
| TimelockLemmas.DisburseIdempotent | src/contract.rs:102-130 | A second disbursement at the same `now` emits nothing and changes neither the state nor the tracker. |
| TimelockLemmas.DisbursementKeepsInv | src/contract.rs:102-130 | A disbursement keeps `Inv`: each unlock time ≤ `last_disburse` is in the tracker, and the tracker holds only `true` unlock times. Afterwards every unlock time ≤ `now` is settled. |
| TimelockLemmas.DisbursementTotal | src/contract.rs:106-116 | The sum of one disbursement's sends is the number of settled tranches times `len(recipients) · (deposit / 4 / len(unlock_times))`. |
| TimelockLemmas.DisbursementCovered | src/contract.rs:106-119 | After a disbursement, everything sent is still at most one tranche payout per tracker entry. |
| TimelockLemmas.NoOverspend | src/contract.rs:106-119 | Under the invariant, what the tracker covers is at most the cumulative deposit. |
| TimelockLemmas.StepFacts | src/contract.rs:62-73 | One execute call: keeps `Inv`, only grows the tracker, adds each settled tranche as a new entry, never lowers the deposit, and keeps everything sent covered. |
| TimelockLemmas.SettledStaysSettled | src/contract.rs:103-119 | A tracked unlock time is settled by no call of any later sequence of calls. |
| TimelockLemmas.ExactlyOnce | src/contract.rs:103-119 | Across any sequence of calls, an unlock time settled by call `i` is not settled by any later call `j`. |
| TimelockLemmas.DepositAccumulates | src/contract.rs:62-95 | Across any sequence of calls the final deposit equals the initial deposit plus the amounts of the deposits that succeeded. |
| TimelockLemmas.DepositNeverDecreases | src/contract.rs:62-95 | Across any sequence of calls the cumulative deposit never decreases. |
| TimelockLemmas.RunWithinDeposit | src/contract.rs:62-135 | Across any sequence of calls, what was already sent plus everything later sent is at most the final cumulative deposit. |
| TimelockLemmas.Scenario | src/contract.rs:33-134 | The scenario: instantiate at t0, then the owner deposits 400 and a disbursement runs six months later. It sends 25 to each of recipient1..recipient4 in order, tracks `{t0+6 months: true}` and sets `last_disburse`. Repeating the call does nothing, and a deposit by anyone else is Unauthorized. |

## Left out

- `query`: it is `unimplemented!()` in the source, so there is nothing to model.
- Serialization: the serde derives, `to_binary`, message encoding and `#[entry_point]` wiring are host plumbing.
- `Response` attributes (`method`, `action`, `amount`): these are event-log strings. A response is modelled only as its ordered list of messages.
- Storage failures:
  - a failing `STATE.load`/`save` or `DISBURSEMENT_TRACKER.may_load`/`save` is not modelled;
  - so is loading before `instantiate`;
  - a `Contract` object exists only after its constructor has run `Instantiate`.
- `deps.api.addr_validate`: this is a foreign API call. The owner check is modelled as string equality of `info.sender` with the stored owner, and its own possible failure is not modelled.
- `CosmosMsg`/`BankMsg`/`Coin` structure: each message is an abstract `Send(to, amount, denom)` with the denom `"token"`. The contract only emits messages; executing transfers is the host's job.
- The cw20 receive message's embedded `msg` binary: it is never read by the contract.
- `allocation`: it is kept as an inert field and never read.
- Instantiate: the `u64` overflow of `now + 24 months` is modelled as a failed instantiation, as a panic under overflow checks would make it. A build without overflow checks would wrap instead, and that case is not modelled.
- Deposit overflow: `state.deposit += amount` on `Uint128` panics and the transaction aborts. The model returns `Err(Overflow)` with the state unchanged, which is what the aborted transaction leaves behind.
- Concurrency: the host serializes calls, so the model treats each call as one atomic step.
