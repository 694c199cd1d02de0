/** The contract object itself: the `Farm` struct of lib.rs as a class
    whose entry points update its fields in place, in the order the
    source does. Each entry point is proved to perform exactly the
    transition of the matching state function, and to keep the ledger
    invariant `Inv`.

    A panic on NEAR aborts the call and discards every write it made.
    Where the source panics after it has already written (a transfer to
    an unregistered receiver, an insufficient storage deposit), the
    method restores the state it started from and returns the panic. */
module Contract {
  import opened Ledger
  import FarmSpec
  import LegacyToken
  import FtCore
  import FtReceiver
  import FtStorage

  /** The method's result and final state are those of the transition
      `o` taken from `before`; a panic leaves the state as it was. */
  ghost predicate Matches<T>(o: Outcome<T>, before: FarmState, after: FarmState, r: Result<T>)
  {
    match o
    case Done(t, v) => after == t && r == Ok(v)
    case Panicked(p) => after == before && r == Err(p)
  }

  class Farm {
    var accounts: map<AccountId, Account>
    var bananaTokenAccountId: AccountId
    var nearPerCucumberNumer: nat
    var totalCucumberBalance: nat
    var totalNearReceived: nat
    var totalNearClaimed: nat
    var vaults: map<VaultId, Vault>
    var nextVaultId: VaultId

    /** The persistent fields as one value. */
    function State(): FarmState
      reads this
    {
      FarmState(accounts, bananaTokenAccountId, nearPerCucumberNumer, totalCucumberBalance,
                totalNearReceived, totalNearClaimed, vaults, nextVaultId)
    }

    ghost predicate Valid()
      reads this
    {
      Inv(State())
    }

    /** The body of `new` once the state check has passed. */
    constructor (bananaTokenAccountId: AccountId)
      ensures FarmSpec.New(bananaTokenAccountId, false) == Ok(State())
      ensures Valid()
    {
      accounts := map[];
      this.bananaTokenAccountId := bananaTokenAccountId;
      nearPerCucumberNumer := 0;
      totalCucumberBalance := 0;
      totalNearReceived := 0;
      totalNearClaimed := 0;
      vaults := map[];
      nextVaultId := 0;
    }

    /** `new`: refused when the contract already has state. */
    static method New(bananaTokenAccountId: AccountId, stateExists: bool) returns (r: Result<Farm>)
      ensures r.Ok? <==> FarmSpec.New(bananaTokenAccountId, stateExists).Ok?
      ensures r.Err? ==> r.panic == AlreadyInitialized
      ensures r.Ok? ==> fresh(r.value) && r.value.Valid()
                        && Ok(r.value.State()) == FarmSpec.New(bananaTokenAccountId, stateExists)
    {
      if stateExists {
        return Err(AlreadyInitialized);
      }
      var farm := new Farm(bananaTokenAccountId);
      r := Ok(farm);
    }

    /** Put back the state a call started from, as the runtime does
        when the call panics. */
    method Restore(snapshot: FarmState)
      modifies this
      ensures State() == snapshot
    {
      accounts := snapshot.accounts;
      bananaTokenAccountId := snapshot.bananaTokenAccountId;
      nearPerCucumberNumer := snapshot.nearPerCucumberNumer;
      totalCucumberBalance := snapshot.totalCucumberBalance;
      totalNearReceived := snapshot.totalNearReceived;
      totalNearClaimed := snapshot.totalNearClaimed;
      vaults := snapshot.vaults;
      nextVaultId := snapshot.nextVaultId;
    }

    /** `save_account`. */
    method SaveAccount(id: AccountId, account: Account)
      modifies this
      ensures State() == Ledger.SaveAccount(old(State()), id, account)
    {
      accounts := accounts[id := account];
    }

    // -------------------------------------------------------------
    // lib.rs
    // -------------------------------------------------------------

    method TakeMyNear(attachedDeposit: nat) returns (r: Result<()>)
      requires Valid()
      modifies this
      ensures Valid()
      ensures Matches(FarmSpec.TakeMyNear(old(State()), attachedDeposit), old(State()), State(), r)
    {
      ghost var s := State();
      FarmSpec.TakeMyNearKeepsInv(s, attachedDeposit);
      if totalCucumberBalance < NEAR_PER_CUCUMBER_DENOM {
        return Err(NotEnoughCucumbers);
      }
      var nearPerCucumber := attachedDeposit * NEAR_PER_CUCUMBER_DENOM / totalCucumberBalance;
      nearPerCucumberNumer := nearPerCucumberNumer + nearPerCucumber;
      totalNearReceived := totalNearReceived + attachedDeposit;
      r := Ok(());
    }

    method RegisterAccount(predecessor: AccountId) returns (r: Result<()>)
      requires Valid()
      modifies this
      ensures Valid()
      ensures Matches(FarmSpec.RegisterAccount(old(State()), predecessor), old(State()), State(), r)
    {
      ghost var s := State();
      FarmSpec.RegisterAccountKeepsInv(s, predecessor);
      var account := GetMutAccount(State(), predecessor);
      SaveAccount(predecessor, account);
      r := Ok(());
    }

    /** `claim_near`; the NEAR payout itself is a transfer promise to
        the caller of `r.value`. */
    method ClaimNear(predecessor: AccountId) returns (r: Result<nat>)
      requires Valid()
      modifies this
      ensures Valid()
      ensures Matches(FarmSpec.ClaimNear(old(State()), predecessor), old(State()), State(), r)
    {
      ghost var s := State();
      var account := GetMutAccount(State(), predecessor);
      var amount := account.nearBalance;
      account := account.(nearBalance := 0, nearClaimed := account.nearClaimed + amount);
      SaveAccount(predecessor, account);
      if amount > 0 {
        totalNearClaimed := totalNearClaimed + amount;
      }
      r := Ok(amount);
      assert State() == FarmSpec.ClaimNear(s, predecessor).state;
      FarmSpec.ClaimNearKeepsInv(s, predecessor);
    }

    /** The `DepositAndStake` arm of both receiver hooks. */
    method DepositAndStake(senderId: AccountId, amount: nat)
      requires Settled(State())
      modifies this
      ensures State() == FarmSpec.DepositAndStakeFor(old(State()), senderId, amount)
    {
      var account := GetMutAccount(State(), senderId);
      account := account.(cucumberBalance := account.cucumberBalance + amount);
      SaveAccount(senderId, account);
      totalCucumberBalance := totalCucumberBalance + amount;
    }

    /** `on_receive_with_vault`; the withdrawal from the banana vault it
        then schedules is a cross-contract call. */
    method OnReceiveWithVault(predecessor: AccountId, senderId: AccountId, amount: nat,
                              vaultId: VaultId, payload: FarmSpec.ReceiverPayload) returns (r: Result<()>)
      requires Valid()
      modifies this
      ensures Valid()
      ensures Matches(FarmSpec.OnReceiveWithVault(old(State()), predecessor, senderId, amount, vaultId, payload),
                      old(State()), State(), r)
    {
      ghost var s := State();
      FarmSpec.OnReceiveWithVaultKeepsInv(s, predecessor, senderId, amount, vaultId, payload);
      if predecessor != bananaTokenAccountId {
        return Err(NotBananaToken);
      }
      match payload
      case Unparseable =>
        return Err(PayloadParseError);
      case DepositAndStake =>
        DepositAndStake(senderId, amount);
        r := Ok(());
    }

    // -------------------------------------------------------------
    // legacy_token.rs
    // -------------------------------------------------------------

    /** `withdraw_from_sender`. It panics before it writes anything. */
    method WithdrawFromSender(predecessor: AccountId, receiverId: AccountId, amount: nat)
      returns (r: Result<AccountId>)
      requires Settled(State())
      modifies this
      ensures Matches(LegacyToken.WithdrawFromSender(old(State()), predecessor, receiverId, amount),
                      old(State()), State(), r)
    {
      if amount == 0 {
        return Err(ZeroTransferAmount);
      }
      var senderId := predecessor;
      if senderId == receiverId {
        return Err(TransferToSelf);
      }
      var account := GetMutAccount(State(), senderId);
      if account.cucumberBalance < amount {
        return Err(NotEnoughCucumberBalance);
      }
      account := account.(cucumberBalance := account.cucumberBalance - amount);
      SaveAccount(senderId, account);
      r := Ok(senderId);
    }

    /** `deposit_to_account`. It panics before it writes anything. */
    method DepositToAccount(accountId: AccountId, amount: nat) returns (r: Result<()>)
      requires Settled(State())
      modifies this
      ensures Matches(LegacyToken.DepositToAccount(old(State()), accountId, amount), old(State()), State(), r)
    {
      if amount == 0 {
        return Ok(());
      }
      var stored := GetInternalAccount(State(), accountId);
      if stored.None? {
        return Err(ReceiverNotRegistered);
      }
      var account := Touch(stored.value, nearPerCucumberNumer);
      account := account.(cucumberBalance := account.cucumberBalance + amount);
      SaveAccount(accountId, account);
      r := Ok(());
    }

    /** Debit the caller, then credit the receiver; a failed credit
        undoes the debit. */
    method MoveCucumbers(predecessor: AccountId, receiverId: AccountId, amount: nat)
      returns (r: Result<AccountId>)
      requires Settled(State())
      modifies this
      ensures Matches(LegacyToken.MoveCucumbers(old(State()), predecessor, receiverId, amount),
                      old(State()), State(), r)
    {
      var snapshot := State();
      var senderId := WithdrawFromSender(predecessor, receiverId, amount);
      if senderId.Err? {
        return Err(senderId.panic);
      }
      var deposited := DepositToAccount(receiverId, amount);
      if deposited.Err? {
        Restore(snapshot);
        return Err(deposited.panic);
      }
      r := senderId;
    }

    method TransferRaw(predecessor: AccountId, attachedDeposit: nat, receiverId: AccountId, amount: nat)
      returns (r: Result<()>)
      requires Valid()
      modifies this
      ensures Valid()
      ensures Matches(LegacyToken.TransferRaw(old(State()), predecessor, attachedDeposit, receiverId, amount),
                      old(State()), State(), r)
    {
      ghost var s := State();
      LegacyToken.TransferRawKeepsInv(s, predecessor, attachedDeposit, receiverId, amount);
      if attachedDeposit == 0 {
        return Err(DepositRequired);
      }
      var moved := MoveCucumbers(predecessor, receiverId, amount);
      if moved.Err? {
        return Err(moved.panic);
      }
      r := Ok(());
    }

    /** `transfer_with_vault`; returns the new vault's id, which the
        source passes to the receiver's hook and to `resolve_vault`. */
    method TransferWithVault(predecessor: AccountId, attachedDeposit: nat, receiverId: AccountId, amount: nat)
      returns (r: Result<VaultId>)
      requires Valid()
      modifies this
      ensures Valid()
      ensures Matches(LegacyToken.TransferWithVault(old(State()), predecessor, attachedDeposit, receiverId, amount),
                      old(State()), State(), r)
    {
      ghost var s := State();
      LegacyToken.TransferWithVaultKeepsInv(s, predecessor, attachedDeposit, receiverId, amount);
      if attachedDeposit == 0 {
        return Err(DepositRequired);
      }
      var senderId := WithdrawFromSender(predecessor, receiverId, amount);
      if senderId.Err? {
        return Err(senderId.panic);
      }
      var vaultId := nextVaultId;
      nextVaultId := LegacyToken.NextVaultId(vaultId);
      vaults := vaults[vaultId := Vault(receiverId, amount)];
      r := Ok(vaultId);
    }

    method WithdrawFromVault(predecessor: AccountId, vaultId: VaultId, receiverId: AccountId, amount: nat)
      returns (r: Result<()>)
      requires Valid()
      modifies this
      ensures Valid()
      ensures Matches(LegacyToken.WithdrawFromVault(old(State()), predecessor, vaultId, receiverId, amount),
                      old(State()), State(), r)
    {
      ghost var s := State();
      LegacyToken.WithdrawFromVaultKeepsInv(s, predecessor, vaultId, receiverId, amount);
      if vaultId !in vaults {
        return Err(VaultMissing);
      }
      var vault := vaults[vaultId];
      if predecessor != vault.receiverId {
        return Err(VaultNotOwned);
      }
      if vault.balance < amount {
        return Err(NotEnoughVaultBalance);
      }
      var snapshot := State();
      vault := vault.(balance := vault.balance - amount);
      vaults := vaults[vaultId := vault];
      var deposited := DepositToAccount(receiverId, amount);
      if deposited.Err? {
        Restore(snapshot);
        return Err(deposited.panic);
      }
      r := Ok(());
    }

    method ResolveVault(predecessor: AccountId, currentAccountId: AccountId, vaultId: VaultId, senderId: AccountId)
      returns (r: Result<nat>)
      requires Valid()
      modifies this
      ensures Valid()
      ensures Matches(LegacyToken.ResolveVault(old(State()), predecessor, currentAccountId, vaultId, senderId),
                      old(State()), State(), r)
    {
      ghost var s := State();
      LegacyToken.ResolveVaultKeepsInv(s, predecessor, currentAccountId, vaultId, senderId);
      if currentAccountId != predecessor {
        return Err(PrivateMethod);
      }
      if vaultId !in vaults {
        return Err(VaultMissing);
      }
      var snapshot := State();
      var vault := vaults[vaultId];
      vaults := vaults - {vaultId};
      if vault.balance > 0 {
        var deposited := DepositToAccount(senderId, vault.balance);
        if deposited.Err? {
          Restore(snapshot);
          return Err(deposited.panic);
        }
      }
      r := Ok(vault.balance);
    }

    // -------------------------------------------------------------
    // ft_core.rs
    // -------------------------------------------------------------

    method FtTransfer(predecessor: AccountId, attachedDeposit: nat, receiverId: AccountId, amount: nat)
      returns (r: Result<()>)
      requires Valid()
      modifies this
      ensures Valid()
      ensures Matches(FtCore.FtTransfer(old(State()), predecessor, attachedDeposit, receiverId, amount),
                      old(State()), State(), r)
    {
      ghost var s := State();
      FtCore.FtTransferKeepsInv(s, predecessor, attachedDeposit, receiverId, amount);
      if attachedDeposit != 1 {
        return Err(OneYoctoRequired);
      }
      var moved := MoveCucumbers(predecessor, receiverId, amount);
      if moved.Err? {
        return Err(moved.panic);
      }
      r := Ok(());
    }

    /** `ft_transfer_call` up to the point where it hands over to the
        receiver's `ft_on_transfer` and schedules `ft_resolve_transfer`. */
    method FtTransferCall(predecessor: AccountId, attachedDeposit: nat, receiverId: AccountId, amount: nat)
      returns (r: Result<()>)
      requires Valid()
      modifies this
      ensures Valid()
      ensures Matches(FtCore.FtTransferCall(old(State()), predecessor, attachedDeposit, receiverId, amount),
                      old(State()), State(), r)
    {
      ghost var s := State();
      FtCore.FtTransferKeepsInv(s, predecessor, attachedDeposit, receiverId, amount);
      if attachedDeposit != 1 {
        return Err(OneYoctoRequired);
      }
      var moved := MoveCucumbers(predecessor, receiverId, amount);
      if moved.Err? {
        return Err(moved.panic);
      }
      r := Ok(());
    }

    /** The refund branch of `ft_resolve_transfer`: debit the settled
        receiver, then credit the settled sender. */
    method Refund(senderId: AccountId, receiverId: AccountId, refund: nat)
      requires Settled(State())
      requires refund <= LegacyToken.GetBalance(State(), receiverId)
      modifies this
      ensures State() == FtCore.Refund(old(State()), senderId, receiverId, refund)
    {
      ghost var s := State();
      var receiverAccount := GetMutAccount(State(), receiverId);
      ghost var receiver := receiverAccount;
      receiverAccount := receiverAccount.(cucumberBalance := receiverAccount.cucumberBalance - refund);
      SaveAccount(receiverId, receiverAccount);
      ghost var s' := State();
      var senderAccount := GetMutAccount(State(), senderId);
      FtCore.RefundUnfolds(s, senderId, receiverId, refund, receiver, s', senderAccount);
      senderAccount := senderAccount.(cucumberBalance := senderAccount.cucumberBalance + refund);
      SaveAccount(senderId, senderAccount);
    }

    method FtResolveTransfer(predecessor: AccountId, currentAccountId: AccountId, senderId: AccountId,
                             receiverId: AccountId, amount: nat, result: FtCore.PromiseResult)
      returns (r: Result<nat>)
      requires Valid()
      modifies this
      ensures Valid()
      ensures Matches(FtCore.FtResolveTransfer(old(State()), predecessor, currentAccountId, senderId,
                                               receiverId, amount, result),
                      old(State()), State(), r)
    {
      ghost var s := State();
      FtCore.FtResolveTransferKeepsInv(s, predecessor, currentAccountId, senderId, receiverId, amount, result);
      if predecessor != currentAccountId {
        return Err(PrivateMethod);
      }
      var unused := FtCore.UnusedAmount(amount, result);
      if unused > 0 {
        var receiverAccount := GetMutAccount(State(), receiverId);
        var receiverBalance := receiverAccount.cucumberBalance;
        if receiverBalance > 0 {
          var refund := FtCore.Min(receiverBalance, unused);
          Refund(senderId, receiverId, refund);
          return Ok(amount - refund);
        }
      }
      r := Ok(amount);
    }

    // -------------------------------------------------------------
    // fungible_token_receiver.rs
    // -------------------------------------------------------------

    method FtOnTransfer(predecessor: AccountId, senderId: AccountId, amount: nat, msg: FarmSpec.ReceiverPayload)
      returns (r: Result<nat>)
      requires Valid()
      modifies this
      ensures Valid()
      ensures Matches(FtReceiver.FtOnTransfer(old(State()), predecessor, senderId, amount, msg),
                      old(State()), State(), r)
    {
      ghost var s := State();
      FtReceiver.FtOnTransferKeepsInv(s, predecessor, senderId, amount, msg);
      if predecessor != bananaTokenAccountId {
        return Err(NotBananaToken);
      }
      match msg
      case Unparseable =>
        return Err(PayloadParseError);
      case DepositAndStake =>
        DepositAndStake(senderId, amount);
        r := Ok(0);
    }

    // -------------------------------------------------------------
    // ft_storage.rs
    // -------------------------------------------------------------

    /** `storage_deposit`; `r.value.refund` is the NEAR sent back to the
        caller. */
    method StorageDeposit(predecessor: AccountId, attachedDeposit: nat, storageByteCost: nat,
                          accountId: Option<AccountId>) returns (r: Result<FtStorage.DepositReceipt>)
      requires Valid()
      modifies this
      ensures Valid()
      ensures Matches(FtStorage.StorageDeposit(old(State()), predecessor, attachedDeposit, storageByteCost, accountId),
                      old(State()), State(), r)
    {
      ghost var s := State();
      FtStorage.StorageDepositKeepsInv(s, predecessor, attachedDeposit, storageByteCost, accountId);
      var target := FtStorage.DepositTarget(predecessor, accountId);
      var account := GetMutAccount(State(), target);
      var refund: nat;
      if target in accounts {
        refund := attachedDeposit;
      } else {
        var snapshot := State();
        SaveAccount(target, account);
        var amount := FtStorage.GetStorageBalanceBounds(storageByteCost).min;
        if attachedDeposit < amount {
          Restore(snapshot);
          return Err(InsufficientStorageDeposit);
        }
        refund := attachedDeposit - amount;
      }
      var balance := FtStorage.StorageBalanceOf(State(), storageByteCost, target);
      r := Ok(FtStorage.DepositReceipt(balance.value, refund));
    }
  }
}
