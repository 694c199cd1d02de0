# Berry Farm staking contract in Dafny

This project models Berry Farm, a NEAR smart contract. Users stake
bananas (a NEP-141 token) with the farm and receive cucumbers one for
one. Anyone can pay NEAR into the farm with `take_my_near`. That NEAR is
shared among all cucumber holders through a reward-per-share
accumulator: `near_per_cucumber_numer`, scaled by
`NEAR_PER_CUCUMBER_DENOM` = 10^18. Each account is settled lazily by
`touch`. Cucumbers are a token in their own right, transferable in two
ways:

- NEP-141 `ft_transfer` / `ft_transfer_call`, with the refund callback
  `ft_resolve_transfer`;
- NEP-122 vault transfers `transfer_raw`, `transfer_with_vault`,
  `withdraw_from_vault` and `resolve_vault`.

Accounts register through NEP-145 `storage_deposit`.

The model has two layers.

- **The state as a value.** `Ledger.FarmState` holds the fields of the
  `Farm` struct. Every entry point is a function from a state and the
  call's inputs to an `Outcome`: either `Done(newState, returnValue)`
  or `Panicked(reason)`.
  - One module per Rust file: `FarmSpec` (lib.rs), `LegacyToken`,
    `FtCore`, `FtReceiver`, `FtStorage`.
  - Runtime values are explicit parameters. These are the predecessor
    account, the attached deposit, the current account id, the storage
    byte cost, whether state already exists, and the promise result a
    callback receives.
  - Every panic the model keeps is one constructor of `Ledger.Panic`.
    The gas panic and the uninitialised-state panic are left out (see
    below).
- **The contract object.** `Contract.Farm` is a class with the struct's
  fields. Its methods update them in the order the source does. Each
  entry-point method is proved to reach exactly the state and result of
  the matching function (`Contract.Matches`) and to keep the invariant.
  The internal helpers (`WithdrawFromSender`, `DepositToAccount`,
  `MoveCucumbers`, `DepositAndStake`, `Refund`) are proved to reach
  their function's state from any settled state.
  - A panic on NEAR discards every write of the call. Where the source
    panics after it has already written, the method puts back the state
    it started from.

The invariant `Ledger.Inv` has five parts. Every entry point preserves
it, and `New` establishes it.

- Every stored account is settled at or below the accumulator, so the
  subtraction in `touch` never underflows.
- Every vault id in use is below `next_vault_id`.
- `total_cucumber_balance` equals the sum of the account stakes plus
  the vault balances.
- `total_near_claimed` equals the sum of the accounts' `near_claimed`.
- Solvency: the accounts' total entitlement (credited NEAR plus
  unsettled share, scaled by DENOM) never exceeds DENOM times
  `total_near_received`.

`Ledger.EarningsKept` says that two states at the same accumulator
give every account the same claimable NEAR. Every transfer keeps it,
because both parties are settled before their stakes change.

`Ledger.Grows` collects what no call undoes: the accumulator, the
received and claimed totals and the vault counter only grow, stored
accounts stay stored, and the banana token account is fixed.

## Model

| member | source | states |
|---|---|---|
| Ledger.NewAccount | contract-rs/berry-farm/src/lib.rs:268-273 | an account that is not stored starts with no NEAR, no stake, nothing claimed and zero entitlement |
| Ledger.Touch | contract-rs/berry-farm/src/lib.rs:255-264 | settlement sets `last` to the accumulator and keeps stake and claims; the credit is exactly the floor of (numer - last) * stake / DENOM; it never raises the account's entitlement |
| Ledger.GetInternalAccount | contract-rs/berry-farm/src/lib.rs:248-252 | the stored record exactly when the account is stored |
| Ledger.GetMutAccount | contract-rs/berry-farm/src/lib.rs:266-276 | the record settled at the current accumulator, with the stored stake and claims; a stored account's NEAR balance grows by exactly `Earned`, the floor of (numer - last) * stake / DENOM; an unknown account is a fresh zero record; nothing is stored; entitlement never grows |
| Ledger.SaveAccount | contract-rs/berry-farm/src/lib.rs:278-280 | inserts or overwrites one record; every other record and every other field is unchanged |
| Ledger.TouchIdempotent | contract-rs/berry-farm/src/lib.rs:255-264 | touching twice at the same accumulator equals touching once |
| Ledger.TouchInBetween | contract-rs/berry-farm/src/lib.rs:255-264 | settling at an intermediate accumulator and again later credits at most one settlement at the end, and at most one unit less |
| Ledger.EntitlementSumShift | contract-rs/berry-farm/src/lib.rs:141 | raising the accumulator by d raises the total entitlement by exactly d times the total stake |
| Ledger.SaveSettledKeepsEarnings | contract-rs/berry-farm/src/lib.rs:278-280 | saving a record settled now with its settled NEAR balance changes no account's claimable NEAR |
| Ledger.SaveTouched | contract-rs/berry-farm/src/lib.rs:278-280 | saving a settled record whose credited NEAR is unchanged keeps every record settled, moves the stake and claim sums by the record's change, and does not raise the total entitlement |
| Ledger.CreditedWithinEntitlement | contract-rs/berry-farm/src/lib.rs:255-264 | in a settled ledger, DENOM times the credited NEAR of all accounts is at most their total entitlement |
| Ledger.CreditedWithinOwnEntitlement | contract-rs/berry-farm/src/lib.rs:255-264 | an account settled at or below the accumulator has credited NEAR within its entitlement |
| Ledger.InvBoundsPayouts | contract-rs/berry-farm/src/lib.rs:154-166 | under the invariant, the NEAR credited to all accounts, and the NEAR claimed, never exceed the NEAR received |
| Ledger.StakeWithinTotal | contract-rs/berry-farm/src/lib.rs:52-58 | the account stakes never exceed `total_cucumber_balance` |
| FarmSpec.New | contract-rs/berry-farm/src/lib.rs:108-128 | succeeds exactly when no state exists, else panics "Already initialized"; the new state is empty, bound to the banana token, with every total and the vault counter at 0, and satisfies the invariant |
| FarmSpec.TakeMyNear | contract-rs/berry-farm/src/lib.rs:131-143 | panics unless at least DENOM cucumbers exist; only the accumulator and `total_near_received` change; the latter grows by the deposit; the accumulator's increment is the largest one whose share of all cucumbers does not exceed deposit * DENOM |
| FarmSpec.RegisterAccount | contract-rs/berry-farm/src/lib.rs:145-148 | always succeeds (past the SDK's deposit guard) and stores exactly the caller's settled record (`GetMutAccount`), keeping every other record |
| FarmSpec.AccountExists | contract-rs/berry-farm/src/lib.rs:150-152 | true exactly when the account is stored |
| FarmSpec.ClaimNear | contract-rs/berry-farm/src/lib.rs:154-166 | pays the caller's settled NEAR balance and stores the caller settled at the current accumulator with balance 0 and the payment added to `near_claimed` (so the same earnings are never paid twice); adds it to `total_near_claimed`; every other record and field is unchanged |
| FarmSpec.GetNearBalance | contract-rs/berry-farm/src/lib.rs:168-177 | what the caller could claim now: the settled balance, 0 for an unknown account |
| FarmSpec.GetAccount | contract-rs/berry-farm/src/lib.rs:179-190 | none exactly when the account is not stored; otherwise the settled NEAR balance with the stored stake and claims |
| FarmSpec.GetStats | contract-rs/berry-farm/src/lib.rs:192-198 | the three global totals |
| FarmSpec.GetTotalNearClaimed | contract-rs/berry-farm/src/lib.rs:200-202 | agrees with the claimed total of `get_stats` |
| FarmSpec.GetTotalNearReceived | contract-rs/berry-farm/src/lib.rs:204-206 | agrees with the received total of `get_stats` |
| FarmSpec.DepositAndStakeFor | contract-rs/berry-farm/src/lib.rs:227-232 | the sender is stored as its settled record with the stake raised by exactly the amount, and the total grows by the amount; nothing else changes |
| FarmSpec.OnReceiveWithVault | contract-rs/berry-farm/src/lib.rs:211-244 | panics unless called by the banana token, and on an unparseable payload; otherwise stakes the amount for the sender |
| FarmSpec.TakeMyNearKeepsInv | contract-rs/berry-farm/src/lib.rs:131-143 | `take_my_near` keeps the invariant (the new NEAR covers the new entitlement) and only grows the state |
| FarmSpec.DepositAndStakeKeepsInv | contract-rs/berry-farm/src/lib.rs:227-232 | staking keeps the invariant and raises the supply by exactly the amount |
| FarmSpec.OnReceiveWithVaultKeepsInv | contract-rs/berry-farm/src/lib.rs:211-244 | `on_receive_with_vault` keeps the invariant and raises the supply by the amount |
| FarmSpec.RegisterAccountKeepsInv | contract-rs/berry-farm/src/lib.rs:145-148 | registration keeps the invariant and the supply |
| FarmSpec.ClaimNearKeepsInv | contract-rs/berry-farm/src/lib.rs:154-166 | a claim keeps the invariant and the supply |
| FarmSpec.ClaimNearTwice | contract-rs/berry-farm/src/lib.rs:154-166 | a second claim right after a first pays 0 and changes nothing |
| FarmSpec.RegisterThenClaimPaysSame | contract-rs/berry-farm/src/lib.rs:145-166 | registering first does not change what a claim pays |
| LegacyToken.NextVaultId | contract-rs/berry-farm/src/legacy_token.rs:42-44 | the least vault id above the given one |
| LegacyToken.AssertPaid | contract-rs/berry-farm/src/legacy_token.rs:260-265 | passes exactly when a deposit is attached, else panics |
| LegacyToken.GetBalance | contract-rs/berry-farm/src/legacy_token.rs:204-210 | the stored stake, 0 for an unknown account |
| LegacyToken.GetTotalSupply | contract-rs/berry-farm/src/legacy_token.rs:200-202 | under the invariant, the stakes plus the vault balances |
| LegacyToken.WithdrawFromSender | contract-rs/berry-farm/src/legacy_token.rs:216-242 | succeeds exactly for a positive amount, a distinct receiver and a sufficient balance, with the source's panic for each failing check in its order; the caller is stored as its settled record with the stake lowered by exactly the amount; nothing else changes |
| LegacyToken.DepositToAccount | contract-rs/berry-farm/src/legacy_token.rs:245-257 | a zero amount changes nothing; otherwise an unknown receiver panics and a stored one is stored as its settled record with the stake raised by exactly the amount; nothing else changes |
| LegacyToken.MoveCucumbers | contract-rs/berry-farm/src/legacy_token.rs:115-116 | succeeds exactly when both steps do, with the first failing check's panic; both parties are stored settled, with their earned NEAR, the sender with exactly the amount less and the receiver with exactly the amount more; no other record or field changes |
| LegacyToken.TransferRaw | contract-rs/berry-farm/src/legacy_token.rs:111-117 | panics without a deposit; otherwise the move above; the total is unchanged |
| LegacyToken.TransferWithVault | contract-rs/berry-farm/src/legacy_token.rs:119-163 | panics without a deposit or when the debit fails; otherwise the sender is debited, a vault holding the amount for the receiver is stored under the old counter, which is returned, and the counter moves to the next id; the caller's record, the vault table and the counter are all that change |
| LegacyToken.WithdrawFromVault | contract-rs/berry-farm/src/legacy_token.rs:165-184 | panics for a missing vault, another caller or too little in the vault, and then with "Receiver account doesn't exist" for an unregistered receiver of a positive amount; otherwise the vault loses and the receiver gains exactly the amount, stored settled with its earned NEAR; no other record or field changes |
| LegacyToken.ResolveVault | contract-rs/berry-farm/src/legacy_token.rs:186-198 | panics unless self-called, for a missing vault, and with "Receiver account doesn't exist" when a non-empty vault's sender is unregistered; otherwise removes the vault, returns its remaining balance and credits it to the sender, stored settled with its earned NEAR; no other record or field changes |
| LegacyToken.SaveTouchedRebalances | contract-rs/berry-farm/src/legacy_token.rs:236-239 | storing a settled record whose NEAR is unchanged moves the stake sum by the record's stake change and keeps claims and entitlement within bounds |
| LegacyToken.WithdrawFromSenderRebalances | contract-rs/berry-farm/src/legacy_token.rs:216-242 | a debit lowers the stake sum by the amount and raises no entitlement |
| LegacyToken.DepositToAccountRebalances | contract-rs/berry-farm/src/legacy_token.rs:245-257 | a credit raises the stake sum by the amount and raises no entitlement |
| LegacyToken.WithdrawFromSenderKeepsEarnings | contract-rs/berry-farm/src/legacy_token.rs:216-242 | the debit changes no account's claimable NEAR |
| LegacyToken.DepositToAccountKeepsEarnings | contract-rs/berry-farm/src/legacy_token.rs:245-257 | the credit changes no account's claimable NEAR |
| LegacyToken.MoveCucumbersKeepsEarnings | contract-rs/berry-farm/src/legacy_token.rs:115-116 | a transfer changes no account's claimable NEAR, the parties' included |
| LegacyToken.TransferWithVaultKeepsEarnings | contract-rs/berry-farm/src/legacy_token.rs:119-163 | `transfer_with_vault` changes no account's claimable NEAR |
| LegacyToken.WithdrawFromVaultKeepsEarnings | contract-rs/berry-farm/src/legacy_token.rs:165-184 | `withdraw_from_vault` changes no account's claimable NEAR |
| LegacyToken.ResolveVaultKeepsEarnings | contract-rs/berry-farm/src/legacy_token.rs:186-198 | `resolve_vault` changes no account's claimable NEAR |
| LegacyToken.MoveCucumbersRebalances | contract-rs/berry-farm/src/legacy_token.rs:115-116 | a move keeps the stake sum and raises no entitlement |
| LegacyToken.RebalancedKeepsInv | contract-rs/berry-farm/src/legacy_token.rs:115-116 | a move between accounts keeps the invariant and the supply |
| LegacyToken.TransferRawKeepsInv | contract-rs/berry-farm/src/legacy_token.rs:111-117 | `transfer_raw` keeps the invariant and the supply |
| LegacyToken.TransferWithVaultKeepsInv | contract-rs/berry-farm/src/legacy_token.rs:134-144 | `transfer_with_vault` keeps the invariant and the supply, and the new vault id was not in use |
| LegacyToken.WithdrawFromVaultKeepsInv | contract-rs/berry-farm/src/legacy_token.rs:171-183 | `withdraw_from_vault` keeps the invariant and the supply |
| LegacyToken.ResolveVaultKeepsInv | contract-rs/berry-farm/src/legacy_token.rs:187-197 | `resolve_vault` keeps the invariant and the supply |
| LegacyToken.VaultRoundTrip | contract-rs/berry-farm/src/legacy_token.rs:119-198 | a vault transfer resolved before any withdrawal gives the sender back exactly the amount and leaves the vault map as it was |
| FtCore.FtTransfer | contract-rs/berry-farm/src/ft_core.rs:14-28 | panics unless exactly one yoctoNEAR is attached; otherwise the same move as `transfer_raw`; the total is unchanged |
| FtCore.FtTransferCall | contract-rs/berry-farm/src/ft_core.rs:31-41 | exactly one yoctoNEAR, then the same move (and panics) as `ft_transfer` |
| FtCore.FtTotalSupply | contract-rs/berry-farm/src/ft_core.rs:71-73 | agrees with `get_total_supply`; under the invariant, the stakes plus the vault balances |
| FtCore.FtBalanceOf | contract-rs/berry-farm/src/ft_core.rs:75-81 | agrees with `get_balance`: the stored stake, 0 for an unknown account |
| FtCore.UnusedAmount | contract-rs/berry-farm/src/ft_core.rs:115-125 | the unused amount never exceeds the amount; it is the amount capped at the returned value on a parseable success, and the whole amount on a failure or an unparseable result |
| FtCore.Refund | contract-rs/berry-farm/src/ft_core.rs:128-139 | both parties are settled and stored; the receiver loses and the sender gains exactly the refund; no other record or field changes (their exact records: `FtCore.RefundRecords`; their earned NEAR: `FtCore.RefundKeepsEarnings`) |
| FtCore.RefundRecords | contract-rs/berry-farm/src/ft_core.rs:128-139 | each party is stored as its settled record (`GetMutAccount`), with the receiver's stake lowered and the sender's raised by exactly the refund; a self-refund stores the settled record unchanged |
| FtCore.FtResolveTransfer | contract-rs/berry-farm/src/ft_core.rs:106-150 | panics unless self-called; the refund is the lesser of the receiver's balance and the unused amount; the result is the amount minus the refund; no refund means no change; the total is unchanged |
| FtCore.FtTransferKeepsInv | contract-rs/berry-farm/src/ft_core.rs:14-28 | `ft_transfer` keeps the invariant and the supply |
| FtCore.RefundKeepsInv | contract-rs/berry-farm/src/ft_core.rs:128-139 | the refund keeps the invariant and the supply |
| FtCore.RefundRebalances | contract-rs/berry-farm/src/ft_core.rs:128-139 | the refund keeps the stake sum and raises no entitlement |
| FtCore.RefundKeepsEarnings | contract-rs/berry-farm/src/ft_core.rs:128-139 | the refund changes no account's claimable NEAR |
| FtCore.FtResolveTransferKeepsInv | contract-rs/berry-farm/src/ft_core.rs:106-150 | `ft_resolve_transfer` keeps the invariant and the supply |
| FtCore.TransferCallRefusedIsUndone | contract-rs/berry-farm/src/ft_core.rs:38-149 | a transfer call whose receiver uses nothing, resolved at once, reports 0 used and restores both balances |
| FtReceiver.FtOnTransfer | contract-rs/berry-farm/src/fungible_token_receiver.rs:8-32 | panics unless called by the banana token, and on an unparseable message; otherwise stakes the amount for the sender and reports 0 unused |
| FtReceiver.FtOnTransferKeepsInv | contract-rs/berry-farm/src/fungible_token_receiver.rs:24-28 | `ft_on_transfer` keeps the invariant and raises the supply by the amount |
| FtReceiver.StakingSettlesAtOldStake | contract-rs/berry-farm/src/fungible_token_receiver.rs:24-26 | staking settles the sender at the old stake: the claimable NEAR is the same before and after |
| FtStorage.GetStorageBalanceBounds | contract-rs/berry-farm/src/ft_storage.rs:47-53 | minimum and maximum are both 125 bytes times the byte cost |
| FtStorage.StorageBalanceOf | contract-rs/berry-farm/src/ft_storage.rs:55-64 | none exactly for an unregistered account; otherwise the minimum as total and nothing available |
| FtStorage.DepositTarget | contract-rs/berry-farm/src/ft_storage.rs:19-21 | the named account, or the caller when none is named |
| FtStorage.StorageDeposit | contract-rs/berry-farm/src/ft_storage.rs:14-37 | a registered target changes nothing and is refunded the whole deposit; a new one panics below the minimum and is otherwise stored as a fresh record with the rest refunded; afterwards the storage balance exists and is what is returned |
| FtStorage.StorageWithdraw | contract-rs/berry-farm/src/ft_storage.rs:39-41 | always panics "Unimplemented" |
| FtStorage.StorageUnregister | contract-rs/berry-farm/src/ft_storage.rs:43-45 | always panics "Unimplemented" |
| FtStorage.StorageDepositKeepsInv | contract-rs/berry-farm/src/ft_storage.rs:23-31 | `storage_deposit` keeps the invariant and the supply |
| FtStorage.StorageDepositRegistersLikeRegisterAccount | contract-rs/berry-farm/src/ft_storage.rs:23-31 | registering the caller through `storage_deposit` stores the same state as `register_account` |
| FtStorage.StorageDepositTwice | contract-rs/berry-farm/src/ft_storage.rs:24-25 | a second deposit for the same account changes nothing and is refunded in full |
| Contract.Farm.constructor | contract-rs/berry-farm/src/lib.rs:118-127 | the fields of a fresh contract, satisfying the invariant |
| Contract.Farm.New | contract-rs/berry-farm/src/lib.rs:108-128 | a fresh valid contract in the state `FarmSpec.New` gives, or the same panic |
| Contract.Farm.SaveAccount | contract-rs/berry-farm/src/lib.rs:278-280 | the fields after `Ledger.SaveAccount` |
| Contract.Farm.TakeMyNear | contract-rs/berry-farm/src/lib.rs:131-143 | the transition of `FarmSpec.TakeMyNear`, keeping the invariant |
| Contract.Farm.RegisterAccount | contract-rs/berry-farm/src/lib.rs:145-148 | the transition of `FarmSpec.RegisterAccount`, keeping the invariant |
| Contract.Farm.ClaimNear | contract-rs/berry-farm/src/lib.rs:154-166 | the transition of `FarmSpec.ClaimNear`, keeping the invariant |
| Contract.Farm.DepositAndStake | contract-rs/berry-farm/src/lib.rs:227-232 | the fields after `FarmSpec.DepositAndStakeFor` |
| Contract.Farm.OnReceiveWithVault | contract-rs/berry-farm/src/lib.rs:211-244 | the transition of `FarmSpec.OnReceiveWithVault`, keeping the invariant |
| Contract.Farm.WithdrawFromSender | contract-rs/berry-farm/src/legacy_token.rs:216-242 | the transition of `LegacyToken.WithdrawFromSender` |
| Contract.Farm.DepositToAccount | contract-rs/berry-farm/src/legacy_token.rs:245-257 | the transition of `LegacyToken.DepositToAccount` |
| Contract.Farm.MoveCucumbers | contract-rs/berry-farm/src/legacy_token.rs:115-116 | the transition of `LegacyToken.MoveCucumbers`; a failed credit leaves the state as it was |
| Contract.Farm.TransferRaw | contract-rs/berry-farm/src/legacy_token.rs:111-117 | the transition of `LegacyToken.TransferRaw`, keeping the invariant |
| Contract.Farm.TransferWithVault | contract-rs/berry-farm/src/legacy_token.rs:119-163 | the transition of `LegacyToken.TransferWithVault`, keeping the invariant |
| Contract.Farm.WithdrawFromVault | contract-rs/berry-farm/src/legacy_token.rs:165-184 | the transition of `LegacyToken.WithdrawFromVault`, keeping the invariant |
| Contract.Farm.ResolveVault | contract-rs/berry-farm/src/legacy_token.rs:186-198 | the transition of `LegacyToken.ResolveVault`, keeping the invariant |
| Contract.Farm.FtTransfer | contract-rs/berry-farm/src/ft_core.rs:14-28 | the transition of `FtCore.FtTransfer`, keeping the invariant |
| Contract.Farm.FtTransferCall | contract-rs/berry-farm/src/ft_core.rs:31-41 | the transition of `FtCore.FtTransferCall`, keeping the invariant |
| Contract.Farm.Refund | contract-rs/berry-farm/src/ft_core.rs:128-139 | the fields after `FtCore.Refund` |
| Contract.Farm.FtResolveTransfer | contract-rs/berry-farm/src/ft_core.rs:106-150 | the transition of `FtCore.FtResolveTransfer`, keeping the invariant |
| Contract.Farm.FtOnTransfer | contract-rs/berry-farm/src/fungible_token_receiver.rs:8-32 | the transition of `FtReceiver.FtOnTransfer`, keeping the invariant |
| Contract.Farm.StorageDeposit | contract-rs/berry-farm/src/ft_storage.rs:14-37 | the transition of `FtStorage.StorageDeposit`, keeping the invariant |

## Left out

- The web frontend (frontend/src/App.js) is not part of this model. It
  is rendering, wallet calls and floating-point display arithmetic.
- Promises and cross-contract calls are not modelled. These cover the
  NEAR transfers in `claim_near` and `storage_deposit`, the banana-token
  calls in `new` and `on_receive_with_vault`, and the receiver calls
  with their callbacks in `transfer_with_vault` and `ft_transfer_call`.
  The amount a transfer would send is returned instead: the claim, or
  `DepositReceipt.refund`. The callbacks `resolve_vault` and
  `ft_resolve_transfer` are separate operations. The promise result is
  an input to `ft_resolve_transfer`.
- Asynchronous interleaving of receipts is not modelled. Each call is
  one atomic step, and any call may run between a transfer and its
  callback.
- Gas constants and gas checks are not modelled. This includes the
  "Not enough gas attached" panic of `transfer_with_vault` and the
  prepaid-gas subtraction in `ft_transfer_call`.
- The deposit guard that `#[near_bindgen]` generates for every
  `&mut self` method without `#[payable]` is not modelled. On NEAR it
  panics "Method doesn't accept deposit" before the body runs when
  any NEAR is attached. This concerns `register_account`, `claim_near`,
  `withdraw_from_vault`, `resolve_vault`, `on_receive_with_vault`,
  `ft_on_transfer` and `ft_resolve_transfer`. Their functions model the
  body only, so a call that gets past the guard. "Always succeeds" on
  `FarmSpec.RegisterAccount` and `FarmSpec.ClaimNear` means exactly that.
- `log!` output and memos are not modelled.
- JSON parsing of payloads and promise results is not modelled. The
  parsed value, or "unparseable", is an input (`ReceiverPayload`,
  `PromiseResult`).
- The SHA-256 `ShortAccountHash` is treated as injective. Accounts and
  vault owners are keyed by account id.
- Integer widths are not modelled. Balances are unbounded `nat` where
  the source uses u128 and U256, so the model has no overflow panics
  and no `as_u128` conversion panics. `VaultId` is a `nat` where the
  source uses u64.
- `registration_only` in `storage_deposit`, and the `force` and
  `amount` arguments of the unimplemented storage methods, are ignored,
  as the source ignores them.
- `Default for Farm` panics before initialisation. The model starts
  from `New`.
- Read-only views (`get_near_balance`, `get_account`, `get_stats`,
  `get_balance`, `ft_balance_of`, the storage views) are functions of
  the state and have no method on `Contract.Farm`.
