/** The entry points of lib.rs as transitions of `FarmState`: contract
    initialisation, the NEAR reward intake `take_my_near`, account
    registration, reward claims, the read-only views, and staking
    through the NEP-122 receiver hook `on_receive_with_vault`. */
module FarmSpec {
  import opened Sums
  import opened Ledger

  /** The JSON view of an account returned by `get_account`. */
  datatype HumanAccount = HumanAccount(nearBalance: nat, cucumberBalance: nat, nearClaimed: nat)

  /** The JSON view of the totals returned by `get_stats`. */
  datatype HumanStats = HumanStats(totalCucumberBalance: nat, totalNearClaimed: nat, totalNearReceived: nat)

  /** The receiver payload after JSON parsing: the one known variant,
      or a string that does not parse as `OnReceiverPayload`. */
  datatype ReceiverPayload = DepositAndStake | Unparseable

  /** `new`: an empty contract bound to the banana token; refused when
      the contract already has state. */
  function New(bananaTokenAccountId: AccountId, stateExists: bool): (r: Result<FarmState>)
    ensures r.Ok? <==> !stateExists
    ensures r.Err? ==> r.panic == AlreadyInitialized
    ensures r.Ok? ==> Inv(r.value)
    ensures r.Ok? ==> r.value.accounts == map[] && r.value.vaults == map[]
    ensures r.Ok? ==> r.value.bananaTokenAccountId == bananaTokenAccountId
    ensures r.Ok? ==> r.value.totalCucumberBalance == 0 && r.value.totalNearReceived == 0
                      && r.value.totalNearClaimed == 0 && r.value.nearPerCucumberNumer == 0
                      && r.value.nextVaultId == 0
  {
    if stateExists then Err(AlreadyInitialized)
    else Ok(FarmState(map[], bananaTokenAccountId, 0, 0, 0, 0, map[], 0))
  }

  /** `take_my_near`: the attached NEAR is spread over all cucumbers in
      existence by raising the accumulator by deposit * DENOM / total,
      rounded down. No account record is touched. */
  function TakeMyNear(s: FarmState, attachedDeposit: nat): (r: Outcome<()>)
    ensures r.Done? <==> NEAR_PER_CUCUMBER_DENOM <= s.totalCucumberBalance
    ensures r.Panicked? ==> r.panic == NotEnoughCucumbers
    ensures r.Done? ==> r.state.(nearPerCucumberNumer := s.nearPerCucumberNumer,
                                 totalNearReceived := s.totalNearReceived) == s
    ensures r.Done? ==> r.state.totalNearReceived == s.totalNearReceived + attachedDeposit
    // the increment is the largest one that does not overspend the deposit
    ensures r.Done? ==>
              var inc := r.state.nearPerCucumberNumer - s.nearPerCucumberNumer;
              && 0 <= inc
              && inc * s.totalCucumberBalance <= attachedDeposit * NEAR_PER_CUCUMBER_DENOM
              && attachedDeposit * NEAR_PER_CUCUMBER_DENOM < (inc + 1) * s.totalCucumberBalance
  {
    if s.totalCucumberBalance < NEAR_PER_CUCUMBER_DENOM then Panicked(NotEnoughCucumbers)
    else
      var nearPerCucumber := attachedDeposit * NEAR_PER_CUCUMBER_DENOM / s.totalCucumberBalance;
      FloorDivision(attachedDeposit * NEAR_PER_CUCUMBER_DENOM, s.totalCucumberBalance);
      Done(s.(nearPerCucumberNumer := s.nearPerCucumberNumer + nearPerCucumber,
              totalNearReceived := s.totalNearReceived + attachedDeposit), ())
  }

  lemma FloorDivision(x: nat, y: nat)
    requires 0 < y
    ensures (x / y) * y <= x < (x / y + 1) * y
  {
  }

  lemma MulMonotone(k: nat, a: int, b: int)
    requires a <= b
    ensures k * a <= k * b
  {
  }

  /** `register_account`: store the caller's record, settled now. */
  function RegisterAccount(s: FarmState, predecessor: AccountId): (r: Outcome<()>)
    requires Settled(s)
    ensures r.Done?
    ensures r.state.accounts.Keys == s.accounts.Keys + {predecessor}
    ensures r.state.accounts[predecessor].cucumberBalance == At(s.accounts, predecessor, Stake)
    ensures r.state.accounts[predecessor].nearBalance == GetNearBalance(s, predecessor)
    // the stored record is the caller's settled one, claims and accumulator snapshot included
    ensures r.state.accounts[predecessor] == GetMutAccount(s, predecessor)
    ensures forall id :: id in s.accounts && id != predecessor ==> r.state.accounts[id] == s.accounts[id]
    ensures r.state.(accounts := s.accounts) == s
  {
    var account := GetMutAccount(s, predecessor);
    Done(SaveAccount(s, predecessor, account), ())
  }

  /** `account_exists`. */
  function AccountExists(s: FarmState, id: AccountId): (r: bool)
    ensures r <==> id in s.accounts
  {
    GetInternalAccount(s, id).Some?
  }

  /** `claim_near`: pay out the caller's whole settled NEAR balance and
      record it as claimed. The caller's record is stored even if it was
      new. */
  function ClaimNear(s: FarmState, predecessor: AccountId): (r: Outcome<nat>)
    requires Settled(s)
    ensures r.Done?
    ensures r.value == GetNearBalance(s, predecessor)
    ensures r.state.accounts.Keys == s.accounts.Keys + {predecessor}
    ensures r.state.accounts[predecessor].nearBalance == 0
    ensures r.state.accounts[predecessor].nearClaimed == At(s.accounts, predecessor, Claimed) + r.value
    ensures r.state.accounts[predecessor].cucumberBalance == At(s.accounts, predecessor, Stake)
    // the caller is settled now, so the same earnings cannot be paid twice
    ensures r.state.accounts[predecessor]
            == GetMutAccount(s, predecessor).(nearBalance := 0,
                                              nearClaimed := At(s.accounts, predecessor, Claimed) + r.value)
    ensures r.state.totalNearClaimed == s.totalNearClaimed + r.value
    ensures forall id :: id in s.accounts && id != predecessor ==> r.state.accounts[id] == s.accounts[id]
    ensures r.state.(accounts := s.accounts, totalNearClaimed := s.totalNearClaimed) == s
  {
    var account := GetMutAccount(s, predecessor);
    var amount := account.nearBalance;
    var account' := account.(nearBalance := 0, nearClaimed := account.nearClaimed + amount);
    var s' := SaveAccount(s, predecessor, account');
    var s'' := if amount > 0 then s'.(totalNearClaimed := s'.totalNearClaimed + amount) else s';
    Done(s'', amount)
  }

  /** `get_near_balance`: the NEAR the account could claim now, 0 for an
      unknown account. */
  function GetNearBalance(s: FarmState, id: AccountId): (r: nat)
    requires Settled(s)
    ensures r == GetMutAccount(s, id).nearBalance
    ensures id !in s.accounts ==> r == 0
    ensures id in s.accounts ==> s.accounts[id].nearBalance <= r
  {
    match GetInternalAccount(s, id)
    case Some(account) => Touch(account, s.nearPerCucumberNumer).nearBalance
    case None => 0
  }

  /** `get_account`: the settled view of a stored account. */
  function GetAccount(s: FarmState, id: AccountId): (r: Option<HumanAccount>)
    requires Settled(s)
    ensures r.None? <==> id !in s.accounts
    ensures r.Some? ==> r.value.nearBalance == GetNearBalance(s, id)
    ensures r.Some? ==> r.value.cucumberBalance == s.accounts[id].cucumberBalance
    ensures r.Some? ==> r.value.nearClaimed == s.accounts[id].nearClaimed
  {
    match GetInternalAccount(s, id)
    case Some(account) =>
      var touched := Touch(account, s.nearPerCucumberNumer);
      Some(HumanAccount(touched.nearBalance, touched.cucumberBalance, touched.nearClaimed))
    case None => None
  }

  /** `get_stats`. */
  function GetStats(s: FarmState): (r: HumanStats)
    ensures r.totalCucumberBalance == s.totalCucumberBalance
    ensures r.totalNearClaimed == s.totalNearClaimed
    ensures r.totalNearReceived == s.totalNearReceived
  {
    HumanStats(s.totalCucumberBalance, s.totalNearClaimed, s.totalNearReceived)
  }

  /** `get_total_near_claimed`. */
  function GetTotalNearClaimed(s: FarmState): (r: nat)
    ensures r == GetStats(s).totalNearClaimed
  {
    s.totalNearClaimed
  }

  /** `get_total_near_received`. */
  function GetTotalNearReceived(s: FarmState): (r: nat)
    ensures r == GetStats(s).totalNearReceived
  {
    s.totalNearReceived
  }

  /** The `DepositAndStake` arm shared by both receiver hooks: settle
      the sender at its old stake, then mint `amount` cucumbers to it. */
  function DepositAndStakeFor(s: FarmState, senderId: AccountId, amount: nat): (t: FarmState)
    requires Settled(s)
    ensures t.accounts.Keys == s.accounts.Keys + {senderId}
    ensures t.accounts[senderId].cucumberBalance == At(s.accounts, senderId, Stake) + amount
    ensures t.accounts[senderId].nearBalance == GetNearBalance(s, senderId)
    ensures t.accounts[senderId] == GetMutAccount(s, senderId).(cucumberBalance := At(s.accounts, senderId, Stake) + amount)
    ensures t.totalCucumberBalance == s.totalCucumberBalance + amount
    ensures forall id :: id in s.accounts && id != senderId ==> t.accounts[id] == s.accounts[id]
    ensures t.(accounts := s.accounts, totalCucumberBalance := s.totalCucumberBalance) == s
  {
    var account := GetMutAccount(s, senderId);
    var s' := SaveAccount(s, senderId, account.(cucumberBalance := account.cucumberBalance + amount));
    s'.(totalCucumberBalance := s'.totalCucumberBalance + amount)
  }

  /** `on_receive_with_vault`: only the banana token may call it; a
      `DepositAndStake` payload stakes the received bananas as
      cucumbers. The follow-up withdrawal from the banana vault is a
      cross-contract call and not part of the state. */
  function OnReceiveWithVault(s: FarmState, predecessor: AccountId, senderId: AccountId,
                              amount: nat, vaultId: VaultId, payload: ReceiverPayload): (r: Outcome<()>)
    requires Settled(s)
    ensures r.Done? <==> predecessor == s.bananaTokenAccountId && payload == DepositAndStake
    ensures predecessor != s.bananaTokenAccountId ==> r == Panicked(NotBananaToken)
    ensures predecessor == s.bananaTokenAccountId && payload == Unparseable ==> r == Panicked(PayloadParseError)
    ensures r.Done? ==> r.state.totalCucumberBalance == s.totalCucumberBalance + amount
    ensures r.Done? ==> r.state == DepositAndStakeFor(s, senderId, amount)
  {
    if predecessor != s.bananaTokenAccountId then Panicked(NotBananaToken)
    else match payload
      case Unparseable => Panicked(PayloadParseError)
      case DepositAndStake => Done(DepositAndStakeFor(s, senderId, amount), ())
  }

  // ---------------------------------------------------------------
  // Invariant preservation and properties relating several calls
  // ---------------------------------------------------------------

  lemma TakeMyNearKeepsInv(s: FarmState, attachedDeposit: nat)
    requires Inv(s)
    ensures TakeMyNear(s, attachedDeposit).Done? ==>
              Inv(TakeMyNear(s, attachedDeposit).state) && Grows(s, TakeMyNear(s, attachedDeposit).state)
  {
    var r := TakeMyNear(s, attachedDeposit);
    if r.Done? {
      var t := r.state;
      var inc := t.nearPerCucumberNumer - s.nearPerCucumberNumer;
      EntitlementSumShift(s.accounts, s.nearPerCucumberNumer, inc);
      StakeWithinTotal(s);
      MulMonotone(inc, StakeSum(s.accounts), s.totalCucumberBalance);
      assert t.accounts == s.accounts;
    }
  }

  lemma DepositAndStakeKeepsInv(s: FarmState, senderId: AccountId, amount: nat)
    requires Inv(s)
    ensures Inv(DepositAndStakeFor(s, senderId, amount))
    ensures Grows(s, DepositAndStakeFor(s, senderId, amount))
    ensures Supply(DepositAndStakeFor(s, senderId, amount)) == Supply(s) + amount
  {
    var account := GetMutAccount(s, senderId);
    SaveTouched(s, senderId, account.(cucumberBalance := account.cucumberBalance + amount));
  }

  lemma OnReceiveWithVaultKeepsInv(s: FarmState, predecessor: AccountId, senderId: AccountId,
                                   amount: nat, vaultId: VaultId, payload: ReceiverPayload)
    requires Inv(s)
    ensures var r := OnReceiveWithVault(s, predecessor, senderId, amount, vaultId, payload);
            r.Done? ==> Inv(r.state) && Grows(s, r.state) && Supply(r.state) == Supply(s) + amount
  {
    DepositAndStakeKeepsInv(s, senderId, amount);
  }

  lemma RegisterAccountKeepsInv(s: FarmState, predecessor: AccountId)
    requires Inv(s)
    ensures Inv(RegisterAccount(s, predecessor).state)
    ensures Grows(s, RegisterAccount(s, predecessor).state)
    ensures Supply(RegisterAccount(s, predecessor).state) == Supply(s)
  {
    SaveTouched(s, predecessor, GetMutAccount(s, predecessor));
  }

  lemma ClaimNearKeepsInv(s: FarmState, predecessor: AccountId)
    requires Inv(s)
    ensures Inv(ClaimNear(s, predecessor).state)
    ensures Grows(s, ClaimNear(s, predecessor).state)
    ensures Supply(ClaimNear(s, predecessor).state) == Supply(s)
  {
    var account := GetMutAccount(s, predecessor);
    var amount := account.nearBalance;
    SaveTouched(s, predecessor, account.(nearBalance := 0, nearClaimed := account.nearClaimed + amount));
  }

  /** Claiming twice in a row: the second claim pays nothing and
      changes nothing. */
  lemma ClaimNearTwice(s: FarmState, predecessor: AccountId)
    requires Settled(s)
    ensures var first := ClaimNear(s, predecessor).state;
            Settled(first)
            && ClaimNear(first, predecessor).value == 0
            && ClaimNear(first, predecessor).state == first
  {
    var first := ClaimNear(s, predecessor).state;
    assert Settled(first);
    var again := GetMutAccount(first, predecessor);
    assert again == first.accounts[predecessor];
    assert first.accounts[predecessor := again] == first.accounts;
  }

  /** What `get_near_balance` reports is exactly what `claim_near`
      would pay, and reading does not settle: a claim after a
      `register_account` pays the same. */
  lemma RegisterThenClaimPaysSame(s: FarmState, predecessor: AccountId)
    requires Settled(s)
    ensures var registered := RegisterAccount(s, predecessor).state;
            Settled(registered)
            && ClaimNear(registered, predecessor).value == ClaimNear(s, predecessor).value
  {
    var registered := RegisterAccount(s, predecessor).state;
    assert Settled(registered);
    TouchIdempotent(registered.accounts[predecessor], s.nearPerCucumberNumer);
  }
}
