/** ft_core.rs: the cucumber token seen through NEP-141 — plain and
    call-back transfers, the two views, and the refund callback
    `ft_resolve_transfer`. */
module FtCore {
  import opened Ledger
  import opened LegacyToken

  /** What the runtime reports about the receiver's `ft_on_transfer`
      promise: a value that parses as a U128 amount, a value that does
      not parse, or a failure. */
  datatype PromiseResult = Successful(unused: nat) | SuccessfulUnparseable | Failed

  /** `ft_transfer`: exactly one yoctoNEAR attached, then the same
      ledger move as every other transfer. */
  function FtTransfer(s: FarmState, predecessor: AccountId, attachedDeposit: nat,
                      receiverId: AccountId, amount: nat): (r: Outcome<()>)
    requires Settled(s)
    ensures attachedDeposit != 1 ==> r == Panicked(OneYoctoRequired)
    ensures attachedDeposit == 1 ==>
              match MoveCucumbers(s, predecessor, receiverId, amount)
              case Panicked(p) => r == Panicked(p)
              case Done(t, _) => r == Done(t, ())
    ensures r.Done? ==> r.state.totalCucumberBalance == s.totalCucumberBalance
  {
    if attachedDeposit != 1 then Panicked(OneYoctoRequired)
    else match MoveCucumbers(s, predecessor, receiverId, amount)
      case Panicked(p) => Panicked(p)
      case Done(s', _) => Done(s', ())
  }

  /** The ledger part of `ft_transfer_call`: the same checks and the
      same move as `ft_transfer`, before the receiver is called. */
  function FtTransferCall(s: FarmState, predecessor: AccountId, attachedDeposit: nat,
                          receiverId: AccountId, amount: nat): (r: Outcome<()>)
    requires Settled(s)
    ensures attachedDeposit != 1 ==> r == Panicked(OneYoctoRequired)
    ensures attachedDeposit == 1 ==>
              match MoveCucumbers(s, predecessor, receiverId, amount)
              case Panicked(p) => r == Panicked(p)
              case Done(t, _) => r == Done(t, ())
  {
    FtTransfer(s, predecessor, attachedDeposit, receiverId, amount)
  }

  /** `ft_total_supply`: agrees with the NEP-122 view. */
  function FtTotalSupply(s: FarmState): (r: nat)
    ensures r == GetTotalSupply(s)
    ensures SupplyTracked(s) ==> r == Supply(s)
  {
    GetTotalSupply(s)
  }

  /** `ft_balance_of`: agrees with the NEP-122 view, 0 when unknown. */
  function FtBalanceOf(s: FarmState, id: AccountId): (r: nat)
    ensures id !in s.accounts ==> r == 0
    ensures id in s.accounts ==> r == s.accounts[id].cucumberBalance
  {
    GetBalance(s, id)
  }

  function Min(a: nat, b: nat): (m: nat)
    ensures m <= a && m <= b && (m == a || m == b)
  {
    if a <= b then a else b
  }

  /** The part of `amount` the receiver says it did not use: what it
      returned, capped at `amount`; all of it when the call failed or
      its result does not parse. */
  function UnusedAmount(amount: nat, result: PromiseResult): (u: nat)
    ensures u <= amount
    ensures result.Successful? ==> u <= result.unused && (u == amount || u == result.unused)
    ensures !result.Successful? ==> u == amount
  {
    match result
    case Successful(unused) => Min(amount, unused)
    case SuccessfulUnparseable => amount
    case Failed => amount
  }

  /** The refund branch of `ft_resolve_transfer`: debit the (settled)
      receiver by `refund`, store it, then credit the (settled) sender,
      which is stored even if it was new. */
  function Refund(s: FarmState, senderId: AccountId, receiverId: AccountId, refund: nat): (t: FarmState)
    requires Settled(s)
    requires refund <= GetBalance(s, receiverId)
    ensures Settled(t) && t.accounts.Keys == s.accounts.Keys + {receiverId, senderId}
    ensures senderId != receiverId ==>
              && GetBalance(t, receiverId) == GetBalance(s, receiverId) - refund
              && GetBalance(t, senderId) == GetBalance(s, senderId) + refund
    ensures senderId == receiverId ==> GetBalance(t, senderId) == GetBalance(s, senderId)
    ensures forall id :: id in s.accounts && id != senderId && id != receiverId ==> t.accounts[id] == s.accounts[id]
    ensures t.(accounts := s.accounts) == s
  {
    var receiver := GetMutAccount(s, receiverId);
    var s' := SaveAccount(s, receiverId, receiver.(cucumberBalance := receiver.cucumberBalance - refund));
    var sender := GetMutAccount(s', senderId);
    SaveAccount(s', senderId, sender.(cucumberBalance := sender.cucumberBalance + refund))
  }

  /** `Refund` is the two saves of the source, one after the other. */
  lemma RefundUnfolds(s: FarmState, senderId: AccountId, receiverId: AccountId, refund: nat,
                      receiver: Account, s': FarmState, sender: Account)
    requires Settled(s)
    requires refund <= GetBalance(s, receiverId)
    requires receiver == GetMutAccount(s, receiverId)
    requires s' == SaveAccount(s, receiverId, receiver.(cucumberBalance := receiver.cucumberBalance - refund))
    requires Settled(s')
    requires sender == GetMutAccount(s', senderId)
    ensures Refund(s, senderId, receiverId, refund)
            == SaveAccount(s', senderId, sender.(cucumberBalance := sender.cucumberBalance + refund))
  {
  }

  /** `ft_resolve_transfer`: the private callback after
      `ft_transfer_call`. Takes back from the receiver as much of the
      unused amount as it still holds, gives it to the sender, and
      returns the amount that stayed with the receiver. */
  function FtResolveTransfer(s: FarmState, predecessor: AccountId, currentAccountId: AccountId,
                             senderId: AccountId, receiverId: AccountId, amount: nat,
                             result: PromiseResult): (r: Outcome<nat>)
    requires Settled(s)
    ensures r.Panicked? <==> predecessor != currentAccountId
    ensures r.Panicked? ==> r.panic == PrivateMethod
    // the refund is what the receiver can give back of what it did not use
    ensures r.Done? ==> r.value <= amount
    ensures r.Done? ==> amount - r.value == Min(GetBalance(s, receiverId), UnusedAmount(amount, result))
    ensures r.Done? && r.value == amount ==> r.state == s
    ensures r.Done? && r.value < amount ==> r.state == Refund(s, senderId, receiverId, amount - r.value)
    ensures r.Done? ==> r.state.totalCucumberBalance == s.totalCucumberBalance
  {
    if predecessor != currentAccountId then Panicked(PrivateMethod)
    else
      var unused := UnusedAmount(amount, result);
      if unused > 0 then
        var receiverBalance := GetMutAccount(s, receiverId).cucumberBalance;
        if receiverBalance > 0 then
          var refund := Min(receiverBalance, unused);
          Done(Refund(s, senderId, receiverId, refund), amount - refund)
        else Done(s, amount)
      else Done(s, amount)
  }

  // ---------------------------------------------------------------
  // Invariant preservation and the transfer-call round trip
  // ---------------------------------------------------------------

  lemma FtTransferKeepsInv(s: FarmState, predecessor: AccountId, attachedDeposit: nat,
                           receiverId: AccountId, amount: nat)
    requires Inv(s)
    ensures var r := FtTransfer(s, predecessor, attachedDeposit, receiverId, amount);
            r.Done? ==> Inv(r.state) && Grows(s, r.state) && Supply(r.state) == Supply(s)
  {
    MoveCucumbersRebalances(s, predecessor, receiverId, amount);
    var m := MoveCucumbers(s, predecessor, receiverId, amount);
    if m.Done? {
      RebalancedKeepsInv(s, m.state);
    }
  }

  lemma RefundRebalances(s: FarmState, senderId: AccountId, receiverId: AccountId, refund: nat)
    requires Settled(s)
    requires refund <= GetBalance(s, receiverId)
    ensures Rebalanced(s, Refund(s, senderId, receiverId, refund), 0)
  {
    var receiver := GetMutAccount(s, receiverId);
    var receiver' := receiver.(cucumberBalance := receiver.cucumberBalance - refund);
    var s' := SaveAccount(s, receiverId, receiver');
    var sender := GetMutAccount(s', senderId);
    var sender' := sender.(cucumberBalance := sender.cucumberBalance + refund);
    var u := SaveAccount(s', senderId, sender');
    RefundUnfolds(s, senderId, receiverId, refund, receiver, s', sender);
    SaveTouchedRebalances(s, receiverId, receiver');
    SaveTouchedRebalances(s', senderId, sender');
    RebalancedCompose(s, s', u, -(refund as int), refund);
  }

  /** The refund settles both parties before moving cucumbers, so no
      account's claimable NEAR changes. */
  lemma RefundKeepsEarnings(s: FarmState, senderId: AccountId, receiverId: AccountId, refund: nat)
    requires Settled(s)
    requires refund <= GetBalance(s, receiverId)
    ensures EarningsKept(s, Refund(s, senderId, receiverId, refund))
  {
    var receiver := GetMutAccount(s, receiverId);
    var receiver' := receiver.(cucumberBalance := receiver.cucumberBalance - refund);
    var s' := SaveAccount(s, receiverId, receiver');
    var sender := GetMutAccount(s', senderId);
    var sender' := sender.(cucumberBalance := sender.cucumberBalance + refund);
    var u := SaveAccount(s', senderId, sender');
    RefundUnfolds(s, senderId, receiverId, refund, receiver, s', sender);
    SaveSettledKeepsEarnings(s, receiverId, receiver');
    SaveSettledKeepsEarnings(s', senderId, sender');
    EarningsKeptCompose(s, s', u);
  }

  /** Both parties of a refund are stored settled: each keeps its own
      claims and accumulator snapshot, and only its stake moves. */
  lemma RefundRecords(s: FarmState, senderId: AccountId, receiverId: AccountId, refund: nat)
    requires Settled(s)
    requires refund <= GetBalance(s, receiverId)
    ensures var t := Refund(s, senderId, receiverId, refund);
            senderId != receiverId ==>
              && t.accounts[receiverId]
                 == GetMutAccount(s, receiverId).(cucumberBalance := GetBalance(s, receiverId) - refund)
              && t.accounts[senderId]
                 == GetMutAccount(s, senderId).(cucumberBalance := GetBalance(s, senderId) + refund)
    ensures var t := Refund(s, senderId, receiverId, refund);
            senderId == receiverId ==> t.accounts[senderId] == GetMutAccount(s, senderId)
  {
    var receiver := GetMutAccount(s, receiverId);
    var receiver' := receiver.(cucumberBalance := receiver.cucumberBalance - refund);
    var s' := SaveAccount(s, receiverId, receiver');
    SaveSettledKeepsEarnings(s, receiverId, receiver');
    var sender := GetMutAccount(s', senderId);
    RefundUnfolds(s, senderId, receiverId, refund, receiver, s', sender);
    if senderId != receiverId {
      assert GetInternalAccount(s', senderId) == GetInternalAccount(s, senderId);
    } else {
      assert sender == receiver';
    }
  }

  lemma RefundKeepsInv(s: FarmState, senderId: AccountId, receiverId: AccountId, refund: nat)
    requires Inv(s)
    requires refund <= GetBalance(s, receiverId)
    ensures var t := Refund(s, senderId, receiverId, refund);
            Inv(t) && Grows(s, t) && Supply(t) == Supply(s)
  {
    RefundRebalances(s, senderId, receiverId, refund);
    RebalancedKeepsInv(s, Refund(s, senderId, receiverId, refund));
  }

  lemma FtResolveTransferKeepsInv(s: FarmState, predecessor: AccountId, currentAccountId: AccountId,
                                  senderId: AccountId, receiverId: AccountId, amount: nat,
                                  result: PromiseResult)
    requires Inv(s)
    ensures var r := FtResolveTransfer(s, predecessor, currentAccountId, senderId, receiverId, amount, result);
            r.Done? ==> Inv(r.state) && Grows(s, r.state) && Supply(r.state) == Supply(s)
  {
    var r := FtResolveTransfer(s, predecessor, currentAccountId, senderId, receiverId, amount, result);
    if r.Done? && r.value < amount {
      RefundKeepsInv(s, senderId, receiverId, amount - r.value);
    }
  }

  /** A transfer call whose receiver hands back the whole amount,
      resolved while the receiver still holds it, restores both
      balances and reports that nothing was used. */
  lemma TransferCallRefusedIsUndone(s: FarmState, predecessor: AccountId, receiverId: AccountId,
                                    amount: nat, currentAccountId: AccountId, result: PromiseResult)
    requires Settled(s)
    requires 0 < amount && predecessor != receiverId
    requires amount <= GetBalance(s, predecessor) && receiverId in s.accounts
    requires result == Failed || result == SuccessfulUnparseable
             || (result.Successful? && amount <= result.unused)
    ensures FtTransferCall(s, predecessor, 1, receiverId, amount).Done?
    ensures var sent := FtTransferCall(s, predecessor, 1, receiverId, amount).state;
            var back := FtResolveTransfer(sent, currentAccountId, currentAccountId,
                                          predecessor, receiverId, amount, result);
            && back.Done?
            && back.value == 0
            && GetBalance(back.state, predecessor) == GetBalance(s, predecessor)
            && GetBalance(back.state, receiverId) == GetBalance(s, receiverId)
  {
  }
}
