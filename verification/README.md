# Fan-token ledger, modelled in Dafny

This project models the TrueSide fan token's ledger. The ledger holds a single fungible token. Its parts:

- an immutable admin;
- a pause flag;
- a total supply capped at 100,000,000;
- two holdings maps, one of liquid `balances` and one of `staked` amounts. An account with no entry holds zero.

Five operations change the ledger:

- `setPaused` and `mint` are for the admin only.
- `transfer`, `stake` and `unstake` are for holders, and the pause flag blocks them.

Each operation returns either `{value}` or `{error: code}`. The codes are 100 (unauthorized), 101 (insufficient balance), 102 (insufficient stake), 103 (supply cap exceeded) and 104 (paused). A refused call changes nothing.

The ledger is the `mockContract` object in `tests/fan-token.test.ts`. It is modelled as an immutable `Ledger` value. Each operation is a pure function that returns an `Outcome`: the response plus the next ledger.

Files:

- `accounts.dfy` (module `Accounts`):
  - the absent-is-zero lookup `Get`;
  - the two map writes the source performs, `Credit` and `Debit`;
  - the total held, `Sum`, with lemmas on how one write changes it.
- `fan_token.dfy` (module `FanToken`):
  - the state, the error codes and the five operations;
  - `Call`, `Apply` and `Run`, which apply a sequence of calls.
- `properties.dfy` (module `LedgerProperties`):
  - conservation and the supply cap over any call sequence;
  - the round trips;
  - pause gating and access control.
- `scenarios.dfy` (module `Scenarios`): the documented test scenarios as concrete lemmas.

Map entries are created exactly as the source's `Map.set` creates them. So a credit or debit of zero leaves an entry holding 0 where there was none. For this reason:

- the round trips restore every holding as read through `Get` (`SameState`);
- they restore the ledger exactly if and only if the accounts involved already had their entries.

Self-transfers and zero-amount calls change no holding. As the source's `Map.set` does, they can leave the caller's or the recipient's entry present with value 0; a zero mint likewise creates the recipient's entry.

The source's `isAdmin` helper (lines 11-13) is a plain identity test against the stored admin; it is written inline as `caller == l.admin` in `SetPaused` and `Mint`.

## Model

| member | source | states |
|---|---|---|
| FanToken.Init | tests/fan-token.test.ts:3-9 | a fresh ledger is unpaused, has zero supply, every account holds nothing liquid or staked, and the conservation/cap invariant holds |
| FanToken.SetPaused | tests/fan-token.test.ts:11-19 | a non-admin caller gets Unauthorized (exactly then) and the ledger is unchanged; the admin gets `{value: pause}` and only the pause flag changes |
| FanToken.Mint | tests/fan-token.test.ts:21-27 | Unauthorized exactly for a non-admin, even over the cap (the admin check comes first); SupplyCapExceeded exactly for an admin mint past 100,000,000; on error nothing changes; on success the recipient gains `amount`, the supply grows by `amount`, the recipient's entry exists, and no other account, the staked map, the admin or the pause flag changes; the pause flag is not consulted |
| FanToken.Transfer | tests/fan-token.test.ts:29-36 | Paused exactly when paused (checked before the balance); InsufficientBalance exactly when unpaused and the caller's liquid balance is below `amount`; on error nothing changes; on success the caller loses and the recipient gains `amount`, a self-transfer leaves the balance as it was, no other account, staked amount or supply changes |
| FanToken.Stake | tests/fan-token.test.ts:38-45 | Paused / InsufficientBalance exactly under the source's conditions, in that order, without change; on success `amount` moves from the caller's liquid to the caller's staked balance and nothing else changes |
| FanToken.Unstake | tests/fan-token.test.ts:47-54 | Paused / InsufficientStake exactly under the source's conditions, in that order, without change; on success `amount` moves from the caller's staked back to the liquid balance and nothing else changes |
| Accounts.GetWithinSum | tests/fan-token.test.ts:31 | no account's absent-as-zero holding exceeds the total held across all accounts |
| FanToken.Code | tests/fan-token.test.ts:16-50 | every error kind is reported with a code between 100 and 104 (distinctness in CodesDistinct) |
| Accounts.Credit | tests/fan-token.test.ts:24 | crediting adds `amount` to the absent-as-zero entry of one account, creates that entry, and leaves every other account's holding alone |
| Accounts.Debit | tests/fan-token.test.ts:33 | debiting a covered amount takes exactly `amount` from one account, the entry exists afterwards, and leaves every other account alone |
| Accounts.SumRemove | tests/fan-token.test.ts:24-25 | the total held is any one entry plus the total of the rest |
| Accounts.SumSet | tests/fan-token.test.ts:33-34 | overwriting one entry changes the total by new minus old value |
| Accounts.SumCredit | tests/fan-token.test.ts:24-25 | a credit raises the total held by exactly the credited amount |
| Accounts.SumDebit | tests/fan-token.test.ts:42 | a debit lowers the total held by exactly the debited amount |
| LedgerProperties.CodesDistinct | tests/fan-token.test.ts:16-50 | the five error kinds are reported with five distinct codes |
| LedgerProperties.SetPausedPreservesValid | tests/fan-token.test.ts:15-19 | toggling pause keeps supply = liquid + staked totals and the cap |
| LedgerProperties.MintPreservesValid | tests/fan-token.test.ts:23-25 | a mint keeps supply = liquid + staked totals and supply within MAX_SUPPLY |
| LedgerProperties.TransferConserves | tests/fan-token.test.ts:31-34 | any transfer, successful or not, leaves the total of liquid balances unchanged |
| LedgerProperties.TransferPreservesValid | tests/fan-token.test.ts:29-36 | a transfer keeps the conservation/cap invariant |
| LedgerProperties.StakePreservesValid | tests/fan-token.test.ts:40-43 | a stake keeps the conservation/cap invariant |
| LedgerProperties.UnstakePreservesValid | tests/fan-token.test.ts:49-52 | an unstake keeps the conservation/cap invariant |
| LedgerProperties.ApplyPreservesValid | tests/fan-token.test.ts:15-54 | every call keeps the invariant and the admin, and only a successful mint changes the total supply |
| LedgerProperties.RunPreservesValid | tests/fan-token.test.ts:15-54 | after any sequence of calls from a valid ledger, supply equals liquid plus staked totals, stays within the cap, and the admin is unchanged |
| LedgerProperties.FreshLedgerStaysValid | tests/fan-token.test.ts:3-54 | every ledger reachable from a fresh one satisfies conservation and the supply cap |
| LedgerProperties.StakeUnstakeRoundTrip | tests/fan-token.test.ts:38-54 | stake X then unstake X both succeed and restore every holding, and restore the ledger exactly if and only if the caller's liquid and staked entries already existed |
| LedgerProperties.UnstakeStakeRoundTrip | tests/fan-token.test.ts:38-54 | unstake X then stake X both succeed and restore every holding, and restore the ledger exactly if and only if the caller's entries already existed |
| LedgerProperties.TransferRoundTrip | tests/fan-token.test.ts:29-36 | a transfer of X from a to b followed by one from b to a both succeed and restore every holding, and restore the ledger exactly if and only if both accounts already had entries |
| LedgerProperties.ZeroAmountChangesNoHolding | tests/fan-token.test.ts:29-54 | a transfer, stake or unstake of zero changes no holding, supply, admin or pause flag, whatever the caller or the pause state |
| LedgerProperties.SelfTransferIsNoOp | tests/fan-token.test.ts:31-34 | a covered self-transfer succeeds and changes no holding, because the recipient entry is re-read after the debit |
| LedgerProperties.PauseBlocksHolders | tests/fan-token.test.ts:30 | on a paused ledger transfer, stake and unstake answer Paused and change nothing, whatever the balances |
| LedgerProperties.AdminPauseBlocksHolders | tests/fan-token.test.ts:102-106 | after the admin pauses, holder calls are refused with Paused and change nothing |
| LedgerProperties.MintIgnoresPause | tests/fan-token.test.ts:21-27 | the pause flag has no influence on a mint's answer or effect |
| LedgerProperties.PauseUnpauseRoundTrip | tests/fan-token.test.ts:15-19 | pausing then unpausing restores the ledger exactly |
| LedgerProperties.NonAdminChangesNothing | tests/fan-token.test.ts:11-23 | mint and setPaused by a non-admin answer Unauthorized and change nothing, whatever the amount |
| Scenarios.AdminMints | tests/fan-token.test.ts:66-70 | the admin minting 1000 to a holder answers `{value: true}` and the holder holds 1000 |
| Scenarios.MintOverCapRejected | tests/fan-token.test.ts:72-75 | minting 200,000,000 on a fresh ledger answers error 103 and the supply stays 0 |
| Scenarios.TransferScenario | tests/fan-token.test.ts:77-83 | mint 500, transfer 200: the sender holds 300, the recipient 200 |
| Scenarios.StakeScenario | tests/fan-token.test.ts:85-91 | mint 500, stake 200: 300 liquid, 200 staked |
| Scenarios.UnstakeScenario | tests/fan-token.test.ts:93-100 | mint 500, stake 200, unstake 100: 400 liquid, 100 staked |
| Scenarios.PausedTransferRejected | tests/fan-token.test.ts:102-106 | after the admin pauses, a transfer answers error 104 |

## Left out

- Negative amounts: the source uses signed big integers and never rejects a negative amount. A negative transfer would pass the balance check and credit the caller. Amounts here are `nat`, so that behaviour is not modelled.
- The test harness: `describe`, `it`, `expect` and the `beforeEach` reset are not modelled. The `it` cases appear only as the lemmas in `Scenarios`.
- Mutable shared state: the source mutates one shared object. Here every operation takes an explicit ledger value and returns the next one, so aliasing and concurrent interleaving are not modelled.
- Account identifiers: they are opaque strings compared by equality only. The shape of the concrete principal strings is not checked, and neither does the source check it.
- The deployed on-chain contract is not part of this model; only the in-test ledger object is. Caller authentication, persistence and any network interface are also not part of this model.
- Integer width: arithmetic is on unbounded integers, as with the source's big integers, so no overflow is modelled.
