/** The state of the Berry Farm contract (the `Farm` struct of lib.rs)
    as a value, the lazy reward settlement `touch`, the account
    accessors every entry point goes through, and the invariants that
    every reachable state satisfies. */
module Ledger {
  import opened Sums

  type AccountId = string

  /** `VaultId(u64)`; the 64-bit width is not modelled. */
  type VaultId = nat

  /** Fixed-point denominator of the reward accumulator. */
  const NEAR_PER_CUCUMBER_DENOM: nat := 1_000_000_000_000_000_000

  datatype Option<T> = None | Some(value: T)

  /** The panics of the modelled entry points, one constructor per
      message (the gas check of `transfer_with_vault` and the
      uninitialised-state panic of `Default` are not modelled). A panic
      aborts the call and the runtime discards every change the call
      made. */
  datatype Panic =
    | AlreadyInitialized          // "Already initialized"
    | NotEnoughCucumbers          // "Not enough cucumbers"
    | NotBananaToken              // "This farm can only receive bananas through a contract API"
    | PayloadParseError           // "Failed to parse the payload"
    | ZeroTransferAmount          // "Transfer amount should be positive"
    | TransferToSelf              // "The receiver should be different from the sender"
    | NotEnoughCucumberBalance    // "Not enough cucumber balance"
    | ReceiverNotRegistered       // "Receiver account doesn't exist"
    | DepositRequired             // "Requires a deposit of at least 1 yoctoNEAR ..."
    | OneYoctoRequired            // assert_one_yocto
    | VaultMissing                // "Vault doesn't exist"
    | VaultNotOwned               // "The vault is not owned by the predecessor"
    | NotEnoughVaultBalance       // "Not enough balance in the vault"
    | PrivateMethod               // "This method is private" / #[private]
    | InsufficientStorageDeposit  // assert!(attached_deposit >= amount)
    | Unimplemented               // "Unimplemented"

  /** What a state-changing entry point returns to its caller. */
  datatype Result<T> = Ok(value: T) | Err(panic: Panic)

  /** A stored account record. */
  datatype Account = Account(
    lastNearPerCucumberNumer: nat,
    nearBalance: nat,
    cucumberBalance: nat,
    nearClaimed: nat)

  /** A NEP-122 vault: tokens withdrawn from a sender and held for one
      receiver until the receiver withdraws them or the sender's
      callback returns the rest. The owner is kept by account id (the
      source keeps a hash of it). */
  datatype Vault = Vault(receiverId: AccountId, balance: nat)

  /** The persistent fields of `Farm`. */
  datatype FarmState = FarmState(
    accounts: map<AccountId, Account>,
    bananaTokenAccountId: AccountId,
    nearPerCucumberNumer: nat,
    totalCucumberBalance: nat,
    totalNearReceived: nat,
    totalNearClaimed: nat,
    vaults: map<VaultId, Vault>,
    nextVaultId: VaultId)

  /** The effect of one call: either the new state and the returned
      value, or a panic (which leaves the state as it was). */
  datatype Outcome<T> = Done(state: FarmState, value: T) | Panicked(panic: Panic)

  /** Every stored account was settled at or before the current
      accumulator, so `touch`'s subtraction never underflows. */
  ghost predicate Settled(s: FarmState)
  {
    forall id :: id in s.accounts ==> s.accounts[id].lastNearPerCucumberNumer <= s.nearPerCucumberNumer
  }

  /** The record `get_mut_account` makes for an account that is not
      stored: nothing earned, nothing staked, settled now. */
  function NewAccount(numer: nat): (a: Account)
    ensures a.nearBalance == 0 && a.cucumberBalance == 0 && a.nearClaimed == 0
    ensures Entitlement(a, numer) == 0
  {
    Account(numer, 0, 0, 0)
  }

  /** The NEAR an account settled at `last` has earned by `numer`: its
      stake's share of the accumulator's growth, rounded down. */
  function Earned(a: Account, numer: nat): int
  {
    (numer - a.lastNearPerCucumberNumer) * a.cucumberBalance / NEAR_PER_CUCUMBER_DENOM
  }

  /** `touch`: credit the account with its pro-rata share of all NEAR
      received since it was last settled, rounded down, and mark it
      settled at `numer`. */
  function Touch(a: Account, numer: nat): (t: Account)
    requires a.lastNearPerCucumberNumer <= numer
    ensures t.lastNearPerCucumberNumer == numer
    ensures t.cucumberBalance == a.cucumberBalance && t.nearClaimed == a.nearClaimed
    // the credit is exactly the floor of (numer - last) * stake / DENOM
    ensures a.nearBalance <= t.nearBalance
    ensures NEAR_PER_CUCUMBER_DENOM * (t.nearBalance - a.nearBalance)
            <= (numer - a.lastNearPerCucumberNumer) * a.cucumberBalance
            < NEAR_PER_CUCUMBER_DENOM * (t.nearBalance - a.nearBalance + 1)
    // settling never creates entitlement
    ensures Entitlement(t, numer) <= Entitlement(a, numer)
  {
    a.(nearBalance := a.nearBalance + Earned(a, numer), lastNearPerCucumberNumer := numer)
  }

  /** `get_internal_account`: the stored record, if any. */
  function GetInternalAccount(s: FarmState, id: AccountId): (r: Option<Account>)
    ensures r.Some? <==> id in s.accounts
    ensures r.Some? ==> r.value == s.accounts[id]
  {
    if id in s.accounts then Some(s.accounts[id]) else None
  }

  /** `get_mut_account`: the stored record (or a fresh one) touched at
      the current accumulator. It stores nothing. */
  function GetMutAccount(s: FarmState, id: AccountId): (a: Account)
    requires Settled(s)
    ensures a.lastNearPerCucumberNumer == s.nearPerCucumberNumer
    ensures a.cucumberBalance == At(s.accounts, id, Stake)
    ensures a.nearClaimed == At(s.accounts, id, Claimed)
    ensures id !in s.accounts ==> a == NewAccount(s.nearPerCucumberNumer)
    // a stored account is credited exactly what it earned since it was last settled
    ensures id in s.accounts ==>
              a.nearBalance == s.accounts[id].nearBalance + Earned(s.accounts[id], s.nearPerCucumberNumer)
    ensures id in s.accounts ==> s.accounts[id].nearBalance <= a.nearBalance
    ensures Entitlement(a, s.nearPerCucumberNumer)
            <= At(s.accounts, id, EntitlementAt(s.nearPerCucumberNumer))
  {
    match GetInternalAccount(s, id)
    case Some(a) => Touch(a, s.nearPerCucumberNumer)
    case None => NewAccount(s.nearPerCucumberNumer)
  }

  /** `save_account`: insert or overwrite one record. */
  function SaveAccount(s: FarmState, id: AccountId, a: Account): (t: FarmState)
    ensures t.accounts == s.accounts[id := a]
    ensures forall other :: other in s.accounts && other != id ==> t.accounts[other] == s.accounts[other]
    ensures t.(accounts := s.accounts) == s
  {
    s.(accounts := s.accounts[id := a])
  }

  // ---------------------------------------------------------------
  // Weights summed over the ledger
  // ---------------------------------------------------------------

  function Stake(a: Account): int { a.cucumberBalance }

  function Claimed(a: Account): int { a.nearClaimed }

  /** NEAR credited to the account so far, claimed or not. */
  function Credited(a: Account): int { a.nearBalance + a.nearClaimed }

  function VaultBalance(v: Vault): int { v.balance }

  /** Everything the account is entitled to at accumulator `numer`,
      scaled by DENOM: credited NEAR plus the unsettled share
      (numer - last) * stake. */
  function Entitlement(a: Account, numer: int): int
  {
    NEAR_PER_CUCUMBER_DENOM * Credited(a) + (numer - a.lastNearPerCucumberNumer) * a.cucumberBalance
  }

  function EntitlementAt(numer: int): Account -> int
  {
    a => Entitlement(a, numer)
  }

  ghost function StakeSum(m: map<AccountId, Account>): int { Sum(m, Stake) }

  ghost function ClaimedSum(m: map<AccountId, Account>): int { Sum(m, Claimed) }

  ghost function CreditedSum(m: map<AccountId, Account>): int { Sum(m, Credited) }

  ghost function EntitlementSum(m: map<AccountId, Account>, numer: int): int { Sum(m, EntitlementAt(numer)) }

  ghost function VaultSum(m: map<VaultId, Vault>): int { Sum(m, VaultBalance) }

  /** Cucumbers in existence: staked in accounts plus held in vaults. */
  ghost function Supply(s: FarmState): int
  {
    StakeSum(s.accounts) + VaultSum(s.vaults)
  }

  // ---------------------------------------------------------------
  // The contract invariant
  // ---------------------------------------------------------------

  /** Vault ids handed out so far are all below the counter. */
  ghost predicate VaultIdsFresh(s: FarmState)
  {
    forall id :: id in s.vaults ==> id < s.nextVaultId
  }

  /** `total_cucumber_balance` counts every cucumber: the account stakes
      plus the vault balances. */
  ghost predicate SupplyTracked(s: FarmState)
  {
    s.totalCucumberBalance == Supply(s)
  }

  /** `total_near_claimed` is the sum of the accounts' `near_claimed`. */
  ghost predicate ClaimsTracked(s: FarmState)
  {
    s.totalNearClaimed == ClaimedSum(s.accounts)
  }

  /** The accounts are never entitled to more NEAR than the contract
      received through `take_my_near`. */
  ghost predicate Solvent(s: FarmState)
  {
    EntitlementSum(s.accounts, s.nearPerCucumberNumer) <= NEAR_PER_CUCUMBER_DENOM * s.totalNearReceived
  }

  ghost predicate Inv(s: FarmState)
  {
    && Settled(s)
    && VaultIdsFresh(s)
    && SupplyTracked(s)
    && ClaimsTracked(s)
    && Solvent(s)
  }

  /** What no call ever undoes: the accumulator and the received and
      claimed totals only grow, vault ids only grow, stored accounts
      stay stored, and the banana token is fixed. */
  ghost predicate Grows(s: FarmState, t: FarmState)
  {
    && s.nearPerCucumberNumer <= t.nearPerCucumberNumer
    && s.totalNearReceived <= t.totalNearReceived
    && s.totalNearClaimed <= t.totalNearClaimed
    && s.nextVaultId <= t.nextVaultId
    && s.accounts.Keys <= t.accounts.Keys
    && s.bananaTokenAccountId == t.bananaTokenAccountId
  }

  // ---------------------------------------------------------------
  // Lemmas
  // ---------------------------------------------------------------

  /** Between two settled states at the same accumulator, every
      account, stored or not, could claim the same NEAR. */
  ghost predicate EarningsKept(s: FarmState, t: FarmState)
    requires Settled(s) && Settled(t)
  {
    && s.nearPerCucumberNumer == t.nearPerCucumberNumer
    && forall id :: GetMutAccount(t, id).nearBalance == GetMutAccount(s, id).nearBalance
  }

  /** Storing a record settled now, whose NEAR balance is the settled
      one, changes no account's claimable NEAR. */
  lemma SaveSettledKeepsEarnings(s: FarmState, id: AccountId, a: Account)
    requires Settled(s)
    requires a.lastNearPerCucumberNumer == s.nearPerCucumberNumer
    requires a.nearBalance == GetMutAccount(s, id).nearBalance
    ensures Settled(SaveAccount(s, id, a))
    ensures EarningsKept(s, SaveAccount(s, id, a))
  {
    var t := SaveAccount(s, id, a);
    forall other
      ensures GetMutAccount(t, other).nearBalance == GetMutAccount(s, other).nearBalance
    {
      if other == id {
        assert t.accounts[id] == a;
      }
    }
  }

  lemma EarningsKeptCompose(s: FarmState, t: FarmState, u: FarmState)
    requires Settled(s) && Settled(t) && Settled(u)
    requires EarningsKept(s, t) && EarningsKept(t, u)
    ensures EarningsKept(s, u)
  {
  }

  /** Touching an account twice at the same accumulator is the same as
      touching it once. */
  lemma TouchIdempotent(a: Account, numer: nat)
    requires a.lastNearPerCucumberNumer <= numer
    ensures Touch(Touch(a, numer), numer) == Touch(a, numer)
  {
  }

  lemma MulNonNegative(x: int, y: int)
    requires 0 <= x && 0 <= y
    ensures 0 <= x * y
  {
  }

  lemma MulDistributes(d: int, x: int, y: int)
    ensures d * (x + y) == d * x + d * y
    ensures (x + y) * d == x * d + y * d
  {
  }

  /** Floor division by DENOM of a sum is the sum of the floors, or one
      more. */
  lemma FloorSum(x: nat, y: nat)
    ensures x / NEAR_PER_CUCUMBER_DENOM + y / NEAR_PER_CUCUMBER_DENOM
            <= (x + y) / NEAR_PER_CUCUMBER_DENOM
            <= x / NEAR_PER_CUCUMBER_DENOM + y / NEAR_PER_CUCUMBER_DENOM + 1
  {
  }

  /** Settling at an intermediate accumulator value and again later
      credits at most what one settlement at the end credits, and
      loses at most one unit to rounding. */
  lemma TouchInBetween(a: Account, mid: nat, numer: nat)
    requires a.lastNearPerCucumberNumer <= mid <= numer
    ensures Touch(Touch(a, mid), numer).nearBalance <= Touch(a, numer).nearBalance
            <= Touch(Touch(a, mid), numer).nearBalance + 1
    ensures Touch(Touch(a, mid), numer).lastNearPerCucumberNumer == Touch(a, numer).lastNearPerCucumberNumer
  {
    var l, c := a.lastNearPerCucumberNumer, a.cucumberBalance;
    var x, y := (mid - l) * c, (numer - mid) * c;
    MulDistributes(c, mid - l, numer - mid);
    FloorSum(x, y);
  }

  lemma EntitlementShift(a: Account, numer: int, d: int)
    ensures Entitlement(a, numer + d) == Entitlement(a, numer) + d * a.cucumberBalance
  {
    MulDistributes(a.cucumberBalance, numer - a.lastNearPerCucumberNumer, d);
  }

  /** Raising the accumulator by `d` raises every entitlement by
      d * stake, hence the sum by d * (sum of stakes). */
  lemma {:induction false} EntitlementSumShift(m: map<AccountId, Account>, numer: int, d: int)
    ensures EntitlementSum(m, numer + d) == EntitlementSum(m, numer) + d * StakeSum(m)
    decreases |m.Keys|
  {
    if m.Keys != {} {
      var k :| k in m.Keys;
      var rest := m - {k};
      assert rest.Keys == m.Keys - {k};
      SumRemove(m, k, EntitlementAt(numer + d));
      SumRemove(m, k, EntitlementAt(numer));
      SumRemove(m, k, Stake);
      EntitlementSumShift(rest, numer, d);
      EntitlementShift(m[k], numer, d);
      ShiftStep(d, m[k].cucumberBalance, StakeSum(rest), StakeSum(m));
    }
  }

  lemma ShiftStep(d: int, c: int, rest: int, total: int)
    requires total == c + rest
    ensures d * total == d * c + d * rest
  {
  }

  /** Saving one account changes each ledger sum by the difference
      between the new record's weight and the old one's. */
  lemma SaveAccountSums(m: map<AccountId, Account>, id: AccountId, a: Account, numer: int)
    ensures StakeSum(m[id := a]) == StakeSum(m) - At(m, id, Stake) + a.cucumberBalance
    ensures ClaimedSum(m[id := a]) == ClaimedSum(m) - At(m, id, Claimed) + a.nearClaimed
    ensures EntitlementSum(m[id := a], numer)
            == EntitlementSum(m, numer) - At(m, id, EntitlementAt(numer)) + Entitlement(a, numer)
  {
    SumUpdate(m, id, a, Stake);
    SumUpdate(m, id, a, Claimed);
    SumUpdate(m, id, a, EntitlementAt(numer));
  }

  /** Storing a touched account after changing only its stake and
      moving NEAR between its balance and its claimed total keeps the
      invariant's sums in step with the totals that the caller adjusts:
      the stake sum moves by the stake change, the claimed sum by the
      claimed change, and entitlement does not grow. */
  lemma SaveTouched(s: FarmState, id: AccountId, a: Account)
    requires Settled(s)
    requires a.lastNearPerCucumberNumer == s.nearPerCucumberNumer
    requires Credited(a) == Credited(GetMutAccount(s, id))
    ensures Settled(SaveAccount(s, id, a))
    ensures StakeSum(SaveAccount(s, id, a).accounts)
            == StakeSum(s.accounts) + a.cucumberBalance - GetMutAccount(s, id).cucumberBalance
    ensures ClaimedSum(SaveAccount(s, id, a).accounts)
            == ClaimedSum(s.accounts) + a.nearClaimed - GetMutAccount(s, id).nearClaimed
    ensures EntitlementSum(SaveAccount(s, id, a).accounts, s.nearPerCucumberNumer)
            <= EntitlementSum(s.accounts, s.nearPerCucumberNumer)
  {
    var g := GetMutAccount(s, id);
    SaveAccountSums(s.accounts, id, a, s.nearPerCucumberNumer);
    assert Entitlement(a, s.nearPerCucumberNumer) == Entitlement(g, s.nearPerCucumberNumer);
  }

  /** In a settled ledger each account's credited NEAR is at most its
      entitlement, so the credited sum is bounded by the entitlement
      sum. */
  lemma {:induction false} CreditedWithinEntitlement(m: map<AccountId, Account>, numer: int)
    requires forall id :: id in m ==> m[id].lastNearPerCucumberNumer <= numer
    ensures NEAR_PER_CUCUMBER_DENOM * CreditedSum(m) <= EntitlementSum(m, numer)
    decreases |m.Keys|
  {
    if m.Keys != {} {
      var k :| k in m.Keys;
      SumRemove(m, k, Credited);
      SumRemove(m, k, EntitlementAt(numer));
      assert (m - {k}).Keys == m.Keys - {k};
      CreditedWithinEntitlement(m - {k}, numer);
      CreditedWithinOwnEntitlement(m[k], numer);
    }
  }

  lemma CreditedWithinOwnEntitlement(a: Account, numer: int)
    requires a.lastNearPerCucumberNumer <= numer
    ensures NEAR_PER_CUCUMBER_DENOM * Credited(a) <= Entitlement(a, numer)
  {
    MulNonNegative(numer - a.lastNearPerCucumberNumer, a.cucumberBalance);
  }

  /** Solvency in plain terms: the NEAR credited to all accounts
      (claimed or still claimable) never exceeds the NEAR received,
      so in particular the contract never pays out more than it got. */
  lemma InvBoundsPayouts(s: FarmState)
    requires Inv(s)
    ensures CreditedSum(s.accounts) <= s.totalNearReceived
    ensures s.totalNearClaimed <= s.totalNearReceived
  {
    CreditedWithinEntitlement(s.accounts, s.nearPerCucumberNumer);
    SumMonotone(s.accounts, Claimed, Credited);
  }

  /** The stakes never exceed the tracked total (vaults hold the rest). */
  lemma StakeWithinTotal(s: FarmState)
    requires SupplyTracked(s)
    ensures StakeSum(s.accounts) <= s.totalCucumberBalance
  {
    SumNonNegative(s.vaults, VaultBalance);
  }
}
