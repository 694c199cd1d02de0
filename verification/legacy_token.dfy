/** legacy_token.rs: the cucumber token seen through NEP-122 (vault
    transfers), and the two ledger primitives every transfer uses,
    `withdraw_from_sender` and `deposit_to_account`. */
module LegacyToken {
  import opened Sums
  import opened Ledger

  /** `VaultId::next`: the id after `id`, the least one above it. */
  function NextVaultId(id: VaultId): (r: VaultId)
    // the least id above `id`
    ensures id < r && r - 1 <= id
  {
    id + 1
  }

  /** `assert_paid`: at least one yoctoNEAR must be attached. */
  function AssertPaid(attachedDeposit: nat): (r: Result<()>)
    ensures r.Ok? <==> 0 < attachedDeposit
    ensures r.Err? ==> r.panic == DepositRequired
  {
    if attachedDeposit > 0 then Ok(()) else Err(DepositRequired)
  }

  /** `get_balance` (and `ft_balance_of`): the stored stake, 0 for an
      unknown account. */
  function GetBalance(s: FarmState, id: AccountId): (r: nat)
    ensures id !in s.accounts ==> r == 0
    ensures id in s.accounts ==> r == s.accounts[id].cucumberBalance
  {
    match GetInternalAccount(s, id)
    case Some(account) => account.cucumberBalance
    case None => 0
  }

  /** `get_total_supply` (and `ft_total_supply`). */
  function GetTotalSupply(s: FarmState): (r: nat)
    ensures SupplyTracked(s) ==> r == Supply(s)
  {
    s.totalCucumberBalance
  }

  /** `withdraw_from_sender`: take `amount` from the caller, who must not
      be the receiver and must hold at least `amount`. The caller is
      settled before the debit. Returns the caller's id. */
  function WithdrawFromSender(s: FarmState, predecessor: AccountId, receiverId: AccountId, amount: nat)
    : (r: Outcome<AccountId>)
    requires Settled(s)
    ensures r.Done? <==> 0 < amount && predecessor != receiverId && amount <= GetBalance(s, predecessor)
    ensures amount == 0 ==> r == Panicked(ZeroTransferAmount)
    ensures 0 < amount && predecessor == receiverId ==> r == Panicked(TransferToSelf)
    ensures 0 < amount && predecessor != receiverId && GetBalance(s, predecessor) < amount
            ==> r == Panicked(NotEnoughCucumberBalance)
    ensures r.Done? ==> r.value == predecessor && Settled(r.state)
    ensures r.Done? ==> r.state.accounts.Keys == s.accounts.Keys
    ensures r.Done? ==> GetBalance(r.state, predecessor) == GetBalance(s, predecessor) - amount
    ensures r.Done? ==> r.state.accounts[predecessor].nearBalance == GetMutAccount(s, predecessor).nearBalance
    ensures r.Done? ==> r.state.accounts[predecessor]
                        == GetMutAccount(s, predecessor).(cucumberBalance := GetBalance(s, predecessor) - amount)
    ensures r.Done? ==> forall id :: id in s.accounts && id != predecessor ==> r.state.accounts[id] == s.accounts[id]
    ensures r.Done? ==> r.state.(accounts := s.accounts) == s
  {
    if amount == 0 then Panicked(ZeroTransferAmount)
    else if predecessor == receiverId then Panicked(TransferToSelf)
    else
      var account := GetMutAccount(s, predecessor);
      if account.cucumberBalance < amount then Panicked(NotEnoughCucumberBalance)
      else Done(SaveAccount(s, predecessor, account.(cucumberBalance := account.cucumberBalance - amount)),
                predecessor)
  }

  /** `deposit_to_account`: credit `amount` to a registered account,
      settling it first; a zero amount is a no-op even for an unknown
      account. */
  function DepositToAccount(s: FarmState, accountId: AccountId, amount: nat): (r: Outcome<()>)
    requires Settled(s)
    ensures amount == 0 ==> r == Done(s, ())
    ensures 0 < amount && accountId !in s.accounts ==> r == Panicked(ReceiverNotRegistered)
    ensures r.Done? <==> amount == 0 || accountId in s.accounts
    ensures r.Done? ==> Settled(r.state)
    ensures r.Done? ==> r.state.accounts.Keys == s.accounts.Keys
    ensures r.Done? ==> GetBalance(r.state, accountId) == GetBalance(s, accountId) + amount
    ensures r.Done? && 0 < amount ==> r.state.accounts[accountId].nearBalance == GetMutAccount(s, accountId).nearBalance
    ensures r.Done? && 0 < amount ==>
              r.state.accounts[accountId]
              == GetMutAccount(s, accountId).(cucumberBalance := GetBalance(s, accountId) + amount)
    ensures r.Done? ==> forall id :: id in s.accounts && id != accountId ==> r.state.accounts[id] == s.accounts[id]
    ensures r.Done? ==> r.state.(accounts := s.accounts) == s
  {
    if amount == 0 then Done(s, ())
    else match GetInternalAccount(s, accountId)
      case None => Panicked(ReceiverNotRegistered)
      case Some(stored) =>
        var account := Touch(stored, s.nearPerCucumberNumer);
        Done(SaveAccount(s, accountId, account.(cucumberBalance := account.cucumberBalance + amount)), ())
  }

  /** The two lines every transfer shares: debit the caller, credit the
      receiver. */
  function MoveCucumbers(s: FarmState, predecessor: AccountId, receiverId: AccountId, amount: nat)
    : (r: Outcome<AccountId>)
    requires Settled(s)
    ensures r.Done? <==> && 0 < amount && predecessor != receiverId
                         && amount <= GetBalance(s, predecessor) && receiverId in s.accounts
    ensures r.Panicked? ==>
              r.panic == (if amount == 0 then ZeroTransferAmount
                          else if predecessor == receiverId then TransferToSelf
                          else if GetBalance(s, predecessor) < amount then NotEnoughCucumberBalance
                          else ReceiverNotRegistered)
    ensures r.Done? ==> Settled(r.state) && r.state.accounts.Keys == s.accounts.Keys
    ensures r.Done? ==> GetBalance(r.state, predecessor) == GetBalance(s, predecessor) - amount
    ensures r.Done? ==> GetBalance(r.state, receiverId) == GetBalance(s, receiverId) + amount
    // both parties are stored settled, keeping the NEAR they had earned
    ensures r.Done? ==> r.state.accounts[predecessor]
                        == GetMutAccount(s, predecessor).(cucumberBalance := GetBalance(s, predecessor) - amount)
    ensures r.Done? ==> r.state.accounts[receiverId]
                        == GetMutAccount(s, receiverId).(cucumberBalance := GetBalance(s, receiverId) + amount)
    ensures r.Done? ==> forall id :: id in s.accounts && id != predecessor && id != receiverId
                           ==> r.state.accounts[id] == s.accounts[id]
    ensures r.Done? ==> r.state.(accounts := s.accounts) == s
  {
    match WithdrawFromSender(s, predecessor, receiverId, amount)
    case Panicked(p) => Panicked(p)
    case Done(s', senderId) =>
      match DepositToAccount(s', receiverId, amount)
      case Panicked(p) => Panicked(p)
      case Done(s'', _) => Done(s'', senderId)
  }

  /** `transfer_raw`: a paid transfer between two registered accounts. */
  function TransferRaw(s: FarmState, predecessor: AccountId, attachedDeposit: nat,
                       receiverId: AccountId, amount: nat): (r: Outcome<()>)
    requires Settled(s)
    ensures attachedDeposit == 0 ==> r == Panicked(DepositRequired)
    ensures 0 < attachedDeposit ==>
              match MoveCucumbers(s, predecessor, receiverId, amount)
              case Panicked(p) => r == Panicked(p)
              case Done(t, _) => r == Done(t, ())
    ensures r.Done? ==> r.state.totalCucumberBalance == s.totalCucumberBalance
  {
    if AssertPaid(attachedDeposit).Err? then Panicked(DepositRequired)
    else match MoveCucumbers(s, predecessor, receiverId, amount)
      case Panicked(p) => Panicked(p)
      case Done(s', _) => Done(s', ())
  }

  /** `transfer_with_vault`: debit the caller and park the tokens in a
      new vault for the receiver, under the next unused vault id, which
      is returned (it is what the receiver is told about). */
  function TransferWithVault(s: FarmState, predecessor: AccountId, attachedDeposit: nat,
                             receiverId: AccountId, amount: nat): (r: Outcome<VaultId>)
    requires Settled(s)
    ensures attachedDeposit == 0 ==> r == Panicked(DepositRequired)
    ensures 0 < attachedDeposit && WithdrawFromSender(s, predecessor, receiverId, amount).Panicked?
            ==> r == Panicked(WithdrawFromSender(s, predecessor, receiverId, amount).panic)
    ensures r.Done? <==> 0 < attachedDeposit && WithdrawFromSender(s, predecessor, receiverId, amount).Done?
    ensures r.Done? ==> r.value == s.nextVaultId
    ensures r.Done? ==> r.state.nextVaultId == NextVaultId(s.nextVaultId)
    ensures r.Done? ==> r.state.vaults == s.vaults[s.nextVaultId := Vault(receiverId, amount)]
    ensures r.Done? ==> r.state.accounts == WithdrawFromSender(s, predecessor, receiverId, amount).state.accounts
    // nothing but the caller's record, the vault table and the counter changes
    ensures r.Done? ==> r.state.(accounts := s.accounts, vaults := s.vaults, nextVaultId := s.nextVaultId) == s
  {
    if AssertPaid(attachedDeposit).Err? then Panicked(DepositRequired)
    else match WithdrawFromSender(s, predecessor, receiverId, amount)
      case Panicked(p) => Panicked(p)
      case Done(s', _) =>
        var vaultId := s'.nextVaultId;
        Done(s'.(nextVaultId := NextVaultId(vaultId),
                 vaults := s'.vaults[vaultId := Vault(receiverId, amount)]), vaultId)
  }

  /** `withdraw_from_vault`: the vault's receiver takes `amount` out of
      it and credits it to `receiverId`. */
  function WithdrawFromVault(s: FarmState, predecessor: AccountId, vaultId: VaultId,
                             receiverId: AccountId, amount: nat): (r: Outcome<()>)
    requires Settled(s)
    ensures vaultId !in s.vaults ==> r == Panicked(VaultMissing)
    ensures vaultId in s.vaults && s.vaults[vaultId].receiverId != predecessor ==> r == Panicked(VaultNotOwned)
    ensures (vaultId in s.vaults && s.vaults[vaultId].receiverId == predecessor
             && s.vaults[vaultId].balance < amount) ==> r == Panicked(NotEnoughVaultBalance)
    ensures r.Done? <==> && vaultId in s.vaults && s.vaults[vaultId].receiverId == predecessor
                         && amount <= s.vaults[vaultId].balance
                         && (amount == 0 || receiverId in s.accounts)
    ensures (vaultId in s.vaults && s.vaults[vaultId].receiverId == predecessor
             && amount <= s.vaults[vaultId].balance && 0 < amount && receiverId !in s.accounts)
            ==> r == Panicked(ReceiverNotRegistered)
    ensures r.Done? ==> r.state.vaults == s.vaults[vaultId := s.vaults[vaultId].(balance := s.vaults[vaultId].balance - amount)]
    ensures r.Done? ==> Settled(r.state) && r.state.accounts.Keys == s.accounts.Keys
    ensures r.Done? ==> GetBalance(r.state, receiverId) == GetBalance(s, receiverId) + amount
    // the receiver is stored settled, keeping the NEAR it had earned
    ensures r.Done? && 0 < amount ==>
              r.state.accounts[receiverId]
              == GetMutAccount(s, receiverId).(cucumberBalance := GetBalance(s, receiverId) + amount)
    ensures r.Done? ==> forall id :: id in s.accounts && (id != receiverId || amount == 0)
                           ==> r.state.accounts[id] == s.accounts[id]
    ensures r.Done? ==> r.state.(accounts := s.accounts, vaults := s.vaults) == s
  {
    if vaultId !in s.vaults then Panicked(VaultMissing)
    else
      var vault := s.vaults[vaultId];
      if predecessor != vault.receiverId then Panicked(VaultNotOwned)
      else if vault.balance < amount then Panicked(NotEnoughVaultBalance)
      else
        var s' := s.(vaults := s.vaults[vaultId := vault.(balance := vault.balance - amount)]);
        DepositToAccount(s', receiverId, amount)
  }

  /** `resolve_vault`: the self-callback after the receiver's hook ran;
      removes the vault, gives what is left in it back to the sender and
      returns that amount. */
  function ResolveVault(s: FarmState, predecessor: AccountId, currentAccountId: AccountId,
                        vaultId: VaultId, senderId: AccountId): (r: Outcome<nat>)
    requires Settled(s)
    ensures predecessor != currentAccountId ==> r == Panicked(PrivateMethod)
    ensures predecessor == currentAccountId && vaultId !in s.vaults ==> r == Panicked(VaultMissing)
    ensures r.Done? <==> && predecessor == currentAccountId && vaultId in s.vaults
                         && (s.vaults[vaultId].balance == 0 || senderId in s.accounts)
    ensures (predecessor == currentAccountId && vaultId in s.vaults
             && 0 < s.vaults[vaultId].balance && senderId !in s.accounts)
            ==> r == Panicked(ReceiverNotRegistered)
    ensures r.Done? ==> r.value == s.vaults[vaultId].balance
    ensures r.Done? ==> r.state.vaults == s.vaults - {vaultId}
    ensures r.Done? ==> Settled(r.state) && r.state.accounts.Keys == s.accounts.Keys
    ensures r.Done? ==> GetBalance(r.state, senderId) == GetBalance(s, senderId) + r.value
    // the sender is stored settled, keeping the NEAR it had earned
    ensures r.Done? && 0 < r.value ==>
              r.state.accounts[senderId]
              == GetMutAccount(s, senderId).(cucumberBalance := GetBalance(s, senderId) + r.value)
    ensures r.Done? ==> forall id :: id in s.accounts && (id != senderId || r.value == 0)
                           ==> r.state.accounts[id] == s.accounts[id]
    ensures r.Done? ==> r.state.(accounts := s.accounts, vaults := s.vaults) == s
  {
    if predecessor != currentAccountId then Panicked(PrivateMethod)
    else if vaultId !in s.vaults then Panicked(VaultMissing)
    else
      var vault := s.vaults[vaultId];
      var s' := s.(vaults := s.vaults - {vaultId});
      if vault.balance > 0 then
        match DepositToAccount(s', senderId, vault.balance)
        case Panicked(p) => Panicked(p)
        case Done(s'', _) => Done(s'', vault.balance)
      else Done(s', vault.balance)
  }

  // ---------------------------------------------------------------
  // Ledger effects and invariant preservation
  // ---------------------------------------------------------------

  /** The account sums after one of the ledger primitives: stakes move
      by `stakeChange`, claims are untouched, entitlement does not grow,
      and nothing outside the account table changes. */
  ghost predicate Rebalanced(s: FarmState, t: FarmState, stakeChange: int)
  {
    && Settled(t)
    && t.(accounts := s.accounts) == s
    && s.accounts.Keys <= t.accounts.Keys
    && StakeSum(t.accounts) == StakeSum(s.accounts) + stakeChange
    && ClaimedSum(t.accounts) == ClaimedSum(s.accounts)
    && EntitlementSum(t.accounts, t.nearPerCucumberNumer) <= EntitlementSum(s.accounts, s.nearPerCucumberNumer)
  }

  /** Saving one settled account whose credited NEAR is unchanged is a
      rebalancing by the change in its stake. */
  lemma SaveTouchedRebalances(s: FarmState, id: AccountId, a: Account)
    requires Settled(s)
    requires a.lastNearPerCucumberNumer == s.nearPerCucumberNumer
    requires a.nearBalance == GetMutAccount(s, id).nearBalance
    requires a.nearClaimed == GetMutAccount(s, id).nearClaimed
    ensures Rebalanced(s, SaveAccount(s, id, a), a.cucumberBalance - GetMutAccount(s, id).cucumberBalance)
  {
    SaveTouched(s, id, a);
  }

  /** Two rebalancings in a row are one, by the sum of the changes. */
  lemma RebalancedCompose(s: FarmState, t: FarmState, u: FarmState, c1: int, c2: int)
    requires Rebalanced(s, t, c1) && Rebalanced(t, u, c2)
    ensures Rebalanced(s, u, c1 + c2)
  {
  }

  lemma WithdrawFromSenderRebalances(s: FarmState, predecessor: AccountId, receiverId: AccountId, amount: nat)
    requires Settled(s)
    ensures var r := WithdrawFromSender(s, predecessor, receiverId, amount);
            r.Done? ==> Rebalanced(s, r.state, -(amount as int))
  {
    var r := WithdrawFromSender(s, predecessor, receiverId, amount);
    if r.Done? {
      var account := GetMutAccount(s, predecessor);
      SaveTouched(s, predecessor, account.(cucumberBalance := account.cucumberBalance - amount));
    }
  }

  lemma DepositToAccountRebalances(s: FarmState, accountId: AccountId, amount: nat)
    requires Settled(s)
    ensures var r := DepositToAccount(s, accountId, amount);
            r.Done? ==> Rebalanced(s, r.state, amount)
  {
    if amount > 0 && accountId in s.accounts {
      var account := GetMutAccount(s, accountId);
      SaveTouched(s, accountId, account.(cucumberBalance := account.cucumberBalance + amount));
    }
  }

  lemma MoveCucumbersRebalances(s: FarmState, predecessor: AccountId, receiverId: AccountId, amount: nat)
    requires Settled(s)
    ensures var r := MoveCucumbers(s, predecessor, receiverId, amount);
            r.Done? ==> Rebalanced(s, r.state, 0)
  {
    var w := WithdrawFromSender(s, predecessor, receiverId, amount);
    WithdrawFromSenderRebalances(s, predecessor, receiverId, amount);
    if w.Done? {
      DepositToAccountRebalances(w.state, receiverId, amount);
    }
  }

  /** A rebalancing with no net stake change keeps the invariant. */
  lemma RebalancedKeepsInv(s: FarmState, t: FarmState)
    requires Inv(s) && Rebalanced(s, t, 0)
    ensures Inv(t) && Grows(s, t) && Supply(t) == Supply(s)
  {
  }

  lemma TransferRawKeepsInv(s: FarmState, predecessor: AccountId, attachedDeposit: nat,
                            receiverId: AccountId, amount: nat)
    requires Inv(s)
    ensures var r := TransferRaw(s, predecessor, attachedDeposit, receiverId, amount);
            r.Done? ==> Inv(r.state) && Grows(s, r.state) && Supply(r.state) == Supply(s)
  {
    MoveCucumbersRebalances(s, predecessor, receiverId, amount);
    var m := MoveCucumbers(s, predecessor, receiverId, amount);
    if m.Done? {
      RebalancedKeepsInv(s, m.state);
    }
  }

  lemma TransferWithVaultKeepsInv(s: FarmState, predecessor: AccountId, attachedDeposit: nat,
                                  receiverId: AccountId, amount: nat)
    requires Inv(s)
    ensures var r := TransferWithVault(s, predecessor, attachedDeposit, receiverId, amount);
            r.Done? ==> && Inv(r.state) && Grows(s, r.state) && Supply(r.state) == Supply(s)
                        && r.value !in s.vaults
  {
    var r := TransferWithVault(s, predecessor, attachedDeposit, receiverId, amount);
    if r.Done? {
      var w := WithdrawFromSender(s, predecessor, receiverId, amount);
      WithdrawFromSenderRebalances(s, predecessor, receiverId, amount);
      SumUpdate(s.vaults, s.nextVaultId, Vault(receiverId, amount), VaultBalance);
      assert At(s.vaults, s.nextVaultId, VaultBalance) == 0;
    }
  }

  lemma WithdrawFromVaultKeepsInv(s: FarmState, predecessor: AccountId, vaultId: VaultId,
                                  receiverId: AccountId, amount: nat)
    requires Inv(s)
    ensures var r := WithdrawFromVault(s, predecessor, vaultId, receiverId, amount);
            r.Done? ==> Inv(r.state) && Grows(s, r.state) && Supply(r.state) == Supply(s)
  {
    var r := WithdrawFromVault(s, predecessor, vaultId, receiverId, amount);
    if r.Done? {
      var vault := s.vaults[vaultId];
      var s' := s.(vaults := s.vaults[vaultId := vault.(balance := vault.balance - amount)]);
      SumUpdate(s.vaults, vaultId, vault.(balance := vault.balance - amount), VaultBalance);
      DepositToAccountRebalances(s', receiverId, amount);
    }
  }

  lemma ResolveVaultKeepsInv(s: FarmState, predecessor: AccountId, currentAccountId: AccountId,
                             vaultId: VaultId, senderId: AccountId)
    requires Inv(s)
    ensures var r := ResolveVault(s, predecessor, currentAccountId, vaultId, senderId);
            r.Done? ==> Inv(r.state) && Grows(s, r.state) && Supply(r.state) == Supply(s)
  {
    var r := ResolveVault(s, predecessor, currentAccountId, vaultId, senderId);
    if r.Done? {
      var s' := s.(vaults := s.vaults - {vaultId});
      SumDelete(s.vaults, vaultId, VaultBalance);
      DepositToAccountRebalances(s', senderId, s.vaults[vaultId].balance);
    }
  }

  // ---------------------------------------------------------------
  // Transfers never touch earned NEAR
  // ---------------------------------------------------------------

  lemma WithdrawFromSenderKeepsEarnings(s: FarmState, predecessor: AccountId, receiverId: AccountId, amount: nat)
    requires Settled(s)
    ensures var r := WithdrawFromSender(s, predecessor, receiverId, amount);
            r.Done? ==> EarningsKept(s, r.state)
  {
    if WithdrawFromSender(s, predecessor, receiverId, amount).Done? {
      var account := GetMutAccount(s, predecessor);
      SaveSettledKeepsEarnings(s, predecessor, account.(cucumberBalance := account.cucumberBalance - amount));
    }
  }

  lemma DepositToAccountKeepsEarnings(s: FarmState, accountId: AccountId, amount: nat)
    requires Settled(s)
    ensures var r := DepositToAccount(s, accountId, amount);
            r.Done? ==> EarningsKept(s, r.state)
  {
    if 0 < amount && accountId in s.accounts {
      var account := GetMutAccount(s, accountId);
      SaveSettledKeepsEarnings(s, accountId, account.(cucumberBalance := account.cucumberBalance + amount));
    }
  }

  /** Moving cucumbers between two accounts settles both first, so
      neither loses or gains claimable NEAR, and nobody else does. */
  lemma MoveCucumbersKeepsEarnings(s: FarmState, predecessor: AccountId, receiverId: AccountId, amount: nat)
    requires Settled(s)
    ensures var r := MoveCucumbers(s, predecessor, receiverId, amount);
            r.Done? ==> EarningsKept(s, r.state)
  {
    var w := WithdrawFromSender(s, predecessor, receiverId, amount);
    WithdrawFromSenderKeepsEarnings(s, predecessor, receiverId, amount);
    if w.Done? {
      DepositToAccountKeepsEarnings(w.state, receiverId, amount);
      var d := DepositToAccount(w.state, receiverId, amount);
      if d.Done? {
        EarningsKeptCompose(s, w.state, d.state);
      }
    }
  }

  lemma TransferWithVaultKeepsEarnings(s: FarmState, predecessor: AccountId, attachedDeposit: nat,
                                       receiverId: AccountId, amount: nat)
    requires Settled(s)
    ensures var r := TransferWithVault(s, predecessor, attachedDeposit, receiverId, amount);
            r.Done? ==> Settled(r.state) && EarningsKept(s, r.state)
  {
    var r := TransferWithVault(s, predecessor, attachedDeposit, receiverId, amount);
    WithdrawFromSenderKeepsEarnings(s, predecessor, receiverId, amount);
    if r.Done? {
      var w := WithdrawFromSender(s, predecessor, receiverId, amount).state;
      assert r.state.accounts == w.accounts && r.state.nearPerCucumberNumer == w.nearPerCucumberNumer;
      forall id
        ensures GetMutAccount(r.state, id).nearBalance == GetMutAccount(w, id).nearBalance
      {
        assert GetInternalAccount(r.state, id) == GetInternalAccount(w, id);
      }
    }
  }

  lemma WithdrawFromVaultKeepsEarnings(s: FarmState, predecessor: AccountId, vaultId: VaultId,
                                       receiverId: AccountId, amount: nat)
    requires Settled(s)
    ensures var r := WithdrawFromVault(s, predecessor, vaultId, receiverId, amount);
            r.Done? ==> Settled(r.state) && EarningsKept(s, r.state)
  {
    if vaultId in s.vaults && amount <= s.vaults[vaultId].balance {
      var vault := s.vaults[vaultId];
      var s' := s.(vaults := s.vaults[vaultId := vault.(balance := vault.balance - amount)]);
      assert EarningsKept(s, s') by {
        forall id
          ensures GetMutAccount(s', id).nearBalance == GetMutAccount(s, id).nearBalance
        {
          assert GetInternalAccount(s', id) == GetInternalAccount(s, id);
        }
      }
      DepositToAccountKeepsEarnings(s', receiverId, amount);
      var d := DepositToAccount(s', receiverId, amount);
      if d.Done? {
        EarningsKeptCompose(s, s', d.state);
      }
    }
  }

  lemma ResolveVaultKeepsEarnings(s: FarmState, predecessor: AccountId, currentAccountId: AccountId,
                                  vaultId: VaultId, senderId: AccountId)
    requires Settled(s)
    ensures var r := ResolveVault(s, predecessor, currentAccountId, vaultId, senderId);
            r.Done? ==> EarningsKept(s, r.state)
  {
    if vaultId in s.vaults {
      var s' := s.(vaults := s.vaults - {vaultId});
      assert EarningsKept(s, s') by {
        forall id
          ensures GetMutAccount(s', id).nearBalance == GetMutAccount(s, id).nearBalance
        {
          assert GetInternalAccount(s', id) == GetInternalAccount(s, id);
        }
      }
      var amount := s.vaults[vaultId].balance;
      DepositToAccountKeepsEarnings(s', senderId, amount);
      var d := DepositToAccount(s', senderId, amount);
      if d.Done? {
        EarningsKeptCompose(s, s', d.state);
      }
    }
  }

  /** A vault transfer followed by its callback, when the receiver
      withdrew nothing, gives the sender back exactly what was sent and
      leaves no vault behind. */
  lemma VaultRoundTrip(s: FarmState, predecessor: AccountId, attachedDeposit: nat,
                       receiverId: AccountId, amount: nat, currentAccountId: AccountId)
    requires Inv(s)
    requires TransferWithVault(s, predecessor, attachedDeposit, receiverId, amount).Done?
    ensures var sent := TransferWithVault(s, predecessor, attachedDeposit, receiverId, amount);
            var back := ResolveVault(sent.state, currentAccountId, currentAccountId, sent.value, predecessor);
            && back.Done?
            && back.value == amount
            && GetBalance(back.state, predecessor) == GetBalance(s, predecessor)
            && back.state.vaults == s.vaults
  {
    var sent := TransferWithVault(s, predecessor, attachedDeposit, receiverId, amount);
    assert sent.state.vaults - {sent.value} == s.vaults;
  }
}
