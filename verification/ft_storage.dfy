/** ft_storage.rs: NEP-145 storage management. Registration costs a
    fixed storage deposit; the deposit can never be withdrawn and an
    account can never be unregistered. */
module FtStorage {
  import opened Ledger
  import opened FarmSpec
  import opened LegacyToken

  /** `size_of::<Account>()`: four 16-byte `u128` fields. */
  const ACCOUNT_SIZE_BYTES: nat := 64

  /** The bytes one registration occupies: the record, a 21-byte map
      entry overhead and a 40-byte key. */
  const STORAGE_AMOUNT_BYTES: nat := ACCOUNT_SIZE_BYTES + 21 + 40

  datatype StorageBalance = StorageBalance(total: nat, available: nat)

  datatype StorageBalanceBounds = StorageBalanceBounds(min: nat, max: Option<nat>)

  /** What `storage_deposit` returns, together with the NEAR it sends
      back to the predecessor. */
  datatype DepositReceipt = DepositReceipt(balance: StorageBalance, refund: nat)

  /** `storage_balance_bounds`: a fixed price, so the minimum and the
      maximum coincide. */
  function GetStorageBalanceBounds(storageByteCost: nat): (r: StorageBalanceBounds)
    ensures r.max == Some(r.min)
    ensures r.min == 125 * storageByteCost
  {
    var v := STORAGE_AMOUNT_BYTES * storageByteCost;
    StorageBalanceBounds(v, Some(v))
  }

  /** `storage_balance_of`: a registered account has paid exactly the
      minimum and has nothing available to withdraw. */
  function StorageBalanceOf(s: FarmState, storageByteCost: nat, id: AccountId): (r: Option<StorageBalance>)
    ensures r.Some? <==> AccountExists(s, id)
    ensures r.Some? ==> r.value == StorageBalance(GetStorageBalanceBounds(storageByteCost).min, 0)
  {
    if id in s.accounts then
      Some(StorageBalance(GetStorageBalanceBounds(storageByteCost).min, 0))
    else None
  }

  /** The account `storage_deposit` registers: the one named, or the
      caller. */
  function DepositTarget(predecessor: AccountId, accountId: Option<AccountId>): (r: AccountId)
    ensures accountId.Some? ==> r == accountId.value
    ensures accountId.None? ==> r == predecessor
  {
    match accountId
    case Some(id) => id
    case None => predecessor
  }

  /** `storage_deposit`: register the target account if it is new,
      charging the minimum and refunding the rest of the deposit to the
      caller; if it is already registered, refund the whole deposit and
      change nothing. */
  function StorageDeposit(s: FarmState, predecessor: AccountId, attachedDeposit: nat,
                          storageByteCost: nat, accountId: Option<AccountId>): (r: Outcome<DepositReceipt>)
    requires Settled(s)
    ensures var target := DepositTarget(predecessor, accountId);
            var min := GetStorageBalanceBounds(storageByteCost).min;
            && (target in s.accounts ==> r == Done(s, DepositReceipt(StorageBalance(min, 0), attachedDeposit)))
            && (target !in s.accounts ==> (r.Done? <==> min <= attachedDeposit))
            && (r.Panicked? ==> r.panic == InsufficientStorageDeposit)
            && (r.Done? && target !in s.accounts ==>
                  && r.value.refund + min == attachedDeposit
                  && r.state == SaveAccount(s, target, NewAccount(s.nearPerCucumberNumer)))
            // the final `unwrap` of the storage balance never fails
            && (r.Done? ==> StorageBalanceOf(r.state, storageByteCost, target) == Some(r.value.balance))
  {
    var target := DepositTarget(predecessor, accountId);
    var account := GetMutAccount(s, target);
    var min := GetStorageBalanceBounds(storageByteCost).min;
    if target in s.accounts then
      Done(s, DepositReceipt(StorageBalanceOf(s, storageByteCost, target).value, attachedDeposit))
    else
      var s' := SaveAccount(s, target, account);
      if attachedDeposit < min then Panicked(InsufficientStorageDeposit)
      else Done(s', DepositReceipt(StorageBalanceOf(s', storageByteCost, target).value, attachedDeposit - min))
  }

  /** `storage_withdraw`: never supported. */
  function StorageWithdraw(s: FarmState, amount: Option<nat>): (r: Outcome<StorageBalance>)
    ensures r.Panicked? && r.panic == Unimplemented
  {
    Panicked(Unimplemented)
  }

  /** `storage_unregister`: never supported; the same panic as
      `storage_withdraw`, with the result type of the NEP-145 method. */
  function StorageUnregister(s: FarmState, force: Option<bool>): (r: Outcome<bool>)
    ensures r.Panicked? && r.panic == Unimplemented
  {
    Panicked(Unimplemented)
  }

  // ---------------------------------------------------------------
  // Properties
  // ---------------------------------------------------------------

  lemma StorageDepositKeepsInv(s: FarmState, predecessor: AccountId, attachedDeposit: nat,
                               storageByteCost: nat, accountId: Option<AccountId>)
    requires Inv(s)
    ensures var r := StorageDeposit(s, predecessor, attachedDeposit, storageByteCost, accountId);
            r.Done? ==> Inv(r.state) && Grows(s, r.state) && Supply(r.state) == Supply(s)
  {
    var target := DepositTarget(predecessor, accountId);
    if target !in s.accounts {
      SaveTouchedRebalances(s, target, GetMutAccount(s, target));
      RebalancedKeepsInv(s, SaveAccount(s, target, GetMutAccount(s, target)));
    }
  }

  /** Registering through `storage_deposit` stores the same record as
      `register_account`. */
  lemma StorageDepositRegistersLikeRegisterAccount(s: FarmState, predecessor: AccountId, attachedDeposit: nat,
                                                   storageByteCost: nat)
    requires Settled(s)
    requires predecessor !in s.accounts
    requires GetStorageBalanceBounds(storageByteCost).min <= attachedDeposit
    ensures StorageDeposit(s, predecessor, attachedDeposit, storageByteCost, None).state
            == RegisterAccount(s, predecessor).state
  {
  }

  /** A second deposit for the same account is refunded in full and
      changes nothing. */
  lemma StorageDepositTwice(s: FarmState, predecessor: AccountId, first: nat, second: nat,
                            storageByteCost: nat, accountId: Option<AccountId>)
    requires Settled(s)
    requires StorageDeposit(s, predecessor, first, storageByteCost, accountId).Done?
    ensures var t := StorageDeposit(s, predecessor, first, storageByteCost, accountId).state;
            Settled(t) &&
            StorageDeposit(t, predecessor, second, storageByteCost, accountId)
            == Done(t, DepositReceipt(StorageBalance(GetStorageBalanceBounds(storageByteCost).min, 0), second))
  {
    var t := StorageDeposit(s, predecessor, first, storageByteCost, accountId).state;
    assert DepositTarget(predecessor, accountId) in t.accounts;
  }
}
