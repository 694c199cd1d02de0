/** fungible_token_receiver.rs: the NEP-141 receiver hook through which
    the banana token stakes bananas into the farm. */
module FtReceiver {
  import opened Ledger
  import opened FarmSpec

  /** `ft_on_transfer`: only the banana token may call it; a
      `DepositAndStake` message mints `amount` cucumbers to the sender,
      who is settled at the old stake first and stored even if new. All
      tokens are used, so the unused amount returned is 0. */
  function FtOnTransfer(s: FarmState, predecessor: AccountId, senderId: AccountId,
                        amount: nat, msg: ReceiverPayload): (r: Outcome<nat>)
    requires Settled(s)
    ensures r.Done? <==> predecessor == s.bananaTokenAccountId && msg == DepositAndStake
    ensures predecessor != s.bananaTokenAccountId ==> r == Panicked(NotBananaToken)
    ensures predecessor == s.bananaTokenAccountId && msg == Unparseable ==> r == Panicked(PayloadParseError)
    ensures r.Done? ==> r.value == 0
    ensures r.Done? ==> r.state == DepositAndStakeFor(s, senderId, amount)
  {
    if predecessor != s.bananaTokenAccountId then Panicked(NotBananaToken)
    else match msg
      case Unparseable => Panicked(PayloadParseError)
      case DepositAndStake => Done(DepositAndStakeFor(s, senderId, amount), 0)
  }

  lemma FtOnTransferKeepsInv(s: FarmState, predecessor: AccountId, senderId: AccountId,
                             amount: nat, msg: ReceiverPayload)
    requires Inv(s)
    ensures var r := FtOnTransfer(s, predecessor, senderId, amount, msg);
            r.Done? ==> Inv(r.state) && Grows(s, r.state) && Supply(r.state) == Supply(s) + amount
  {
    DepositAndStakeKeepsInv(s, senderId, amount);
  }

  /** Staking settles first: the rewards earned before the deposit are
      exactly those earned at the old stake, and staking more does not
      change what the sender can claim right now. */
  lemma StakingSettlesAtOldStake(s: FarmState, senderId: AccountId, amount: nat)
    requires Settled(s)
    ensures var t := DepositAndStakeFor(s, senderId, amount);
            Settled(t) && GetNearBalance(t, senderId) == GetNearBalance(s, senderId)
  {
    var t := DepositAndStakeFor(s, senderId, amount);
    assert Settled(t);
    TouchIdempotent(t.accounts[senderId], s.nearPerCucumberNumer);
  }
}
