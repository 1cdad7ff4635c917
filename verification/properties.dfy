/** Properties of the fan-token ledger that relate several calls or hold across all of them. */
module LedgerProperties {
  import opened Accounts
  import opened FanToken

  /** Distinct errors are reported with distinct codes. */
  lemma CodesDistinct(e1: Error, e2: Error)
    ensures Code(e1) == Code(e2) <==> e1 == e2
  {
  }

  lemma SetPausedPreservesValid(l: Ledger, caller: AccountId, pause: bool)
    requires Valid(l)
    ensures Valid(SetPaused(l, caller, pause).next)
  {
  }

  /** A mint adds to the supply exactly what it adds to the recipient, and never passes the cap. */
  lemma MintPreservesValid(l: Ledger, caller: AccountId, recipient: AccountId, amount: nat)
    requires Valid(l)
    ensures Valid(Mint(l, caller, recipient, amount).next)
  {
    if Mint(l, caller, recipient, amount).response.Ok? {
      SumCredit(l.balances, recipient, amount);
    }
  }

  /** A transfer moves tokens between liquid balances without creating or destroying any. */
  lemma TransferConserves(l: Ledger, caller: AccountId, recipient: AccountId, amount: nat)
    ensures Sum(Transfer(l, caller, recipient, amount).next.balances) == Sum(l.balances)
  {
    if Transfer(l, caller, recipient, amount).response.Ok? {
      var debited := Debit(l.balances, caller, amount);
      SumDebit(l.balances, caller, amount);
      SumCredit(debited, recipient, amount);
    }
  }

  lemma TransferPreservesValid(l: Ledger, caller: AccountId, recipient: AccountId, amount: nat)
    requires Valid(l)
    ensures Valid(Transfer(l, caller, recipient, amount).next)
  {
    TransferConserves(l, caller, recipient, amount);
  }

  /** Staking moves tokens from the liquid total to the staked total, one for one. */
  lemma StakePreservesValid(l: Ledger, caller: AccountId, amount: nat)
    requires Valid(l)
    ensures Valid(Stake(l, caller, amount).next)
  {
    if Stake(l, caller, amount).response.Ok? {
      SumDebit(l.balances, caller, amount);
      SumCredit(l.staked, caller, amount);
    }
  }

  /** Unstaking moves tokens from the staked total to the liquid total, one for one. */
  lemma UnstakePreservesValid(l: Ledger, caller: AccountId, amount: nat)
    requires Valid(l)
    ensures Valid(Unstake(l, caller, amount).next)
  {
    if Unstake(l, caller, amount).response.Ok? {
      SumDebit(l.staked, caller, amount);
      SumCredit(l.balances, caller, amount);
    }
  }

  /** Every call keeps the supply equal to what is held and within the cap, keeps the admin,
      and only a successful mint changes the supply. */
  lemma ApplyPreservesValid(l: Ledger, c: Call)
    requires Valid(l)
    ensures Valid(Apply(l, c).next)
    ensures Apply(l, c).next.admin == l.admin
    ensures Apply(l, c).next.totalSupply != l.totalSupply ==> c.MintCall? && Apply(l, c).response.Ok?
  {
    match c
    case SetPausedCall(caller, pause) => SetPausedPreservesValid(l, caller, pause);
    case MintCall(caller, recipient, amount) => MintPreservesValid(l, caller, recipient, amount);
    case TransferCall(caller, recipient, amount) => TransferPreservesValid(l, caller, recipient, amount);
    case StakeCall(caller, amount) => StakePreservesValid(l, caller, amount);
    case UnstakeCall(caller, amount) => UnstakePreservesValid(l, caller, amount);
  }

  /** Conservation and the supply cap hold after any sequence of calls on a ledger that
      satisfies them, and the admin never changes. */
  lemma {:induction false} RunPreservesValid(l: Ledger, calls: seq<Call>)
    requires Valid(l)
    ensures Valid(Run(l, calls))
    ensures Run(l, calls).admin == l.admin
    decreases |calls|
  {
    if |calls| > 0 {
      ApplyPreservesValid(l, calls[0]);
      RunPreservesValid(Apply(l, calls[0]).next, calls[1..]);
    }
  }

  lemma FreshLedgerStaysValid(admin: AccountId, calls: seq<Call>)
    ensures Valid(Run(Init(admin), calls))
    ensures Run(Init(admin), calls).admin == admin
  {
    RunPreservesValid(Init(admin), calls);
  }

  /** Two ledgers that differ at most in entries that read as zero. */
  ghost predicate SameState(a: Ledger, b: Ledger)
  {
    && a.admin == b.admin
    && a.paused == b.paused
    && a.totalSupply == b.totalSupply
    && SameHoldings(a.balances, b.balances)
    && SameHoldings(a.staked, b.staked)
  }

  /** Staking an amount and unstaking it again both succeed and restore every holding. The
      ledger is restored exactly if and only if the caller already had both entries. */
  lemma StakeUnstakeRoundTrip(l: Ledger, caller: AccountId, amount: nat)
    requires !l.paused && amount <= Get(l.balances, caller)
    ensures Stake(l, caller, amount).response == Ok(true)
    ensures Unstake(Stake(l, caller, amount).next, caller, amount).response == Ok(true)
    ensures SameState(Unstake(Stake(l, caller, amount).next, caller, amount).next, l)
    ensures Unstake(Stake(l, caller, amount).next, caller, amount).next == l
            <==> caller in l.balances && caller in l.staked
  {
    var s := Stake(l, caller, amount).next;
    var u := Unstake(s, caller, amount).next;
    assert caller in u.balances && caller in u.staked;
    if caller in l.balances && caller in l.staked {
      assert u.balances == l.balances;
      assert u.staked == l.staked;
    }
  }

  /** Unstaking an amount and staking it again both succeed and restore every holding. The
      ledger is restored exactly if and only if the caller already had both entries. */
  lemma UnstakeStakeRoundTrip(l: Ledger, caller: AccountId, amount: nat)
    requires !l.paused && amount <= Get(l.staked, caller)
    ensures Unstake(l, caller, amount).response == Ok(true)
    ensures Stake(Unstake(l, caller, amount).next, caller, amount).response == Ok(true)
    ensures SameState(Stake(Unstake(l, caller, amount).next, caller, amount).next, l)
    ensures Stake(Unstake(l, caller, amount).next, caller, amount).next == l
            <==> caller in l.balances && caller in l.staked
  {
    var u := Unstake(l, caller, amount).next;
    var s := Stake(u, caller, amount).next;
    assert caller in s.balances && caller in s.staked;
    if caller in l.balances && caller in l.staked {
      assert s.balances == l.balances;
      assert s.staked == l.staked;
    }
  }

  /** Sending an amount and having the recipient send it back restores every balance. The
      ledger is restored exactly if and only if both accounts already had entries. */
  lemma TransferRoundTrip(l: Ledger, a: AccountId, b: AccountId, amount: nat)
    requires !l.paused && amount <= Get(l.balances, a)
    ensures Transfer(l, a, b, amount).response == Ok(true)
    ensures Transfer(Transfer(l, a, b, amount).next, b, a, amount).response == Ok(true)
    ensures SameState(Transfer(Transfer(l, a, b, amount).next, b, a, amount).next, l)
    ensures Transfer(Transfer(l, a, b, amount).next, b, a, amount).next == l
            <==> a in l.balances && b in l.balances
  {
    var t := Transfer(Transfer(l, a, b, amount).next, b, a, amount).next;
    assert a in t.balances && b in t.balances;
    if a in l.balances && b in l.balances {
      assert t.balances == l.balances;
    }
  }

  /** A call that moves nothing changes no holding, whoever makes it and whatever the pause flag. */
  lemma ZeroAmountChangesNoHolding(l: Ledger, caller: AccountId, recipient: AccountId)
    ensures SameState(Transfer(l, caller, recipient, 0).next, l)
    ensures SameState(Stake(l, caller, 0).next, l)
    ensures SameState(Unstake(l, caller, 0).next, l)
  {
  }

  /** A transfer to oneself succeeds whenever the balance covers it and changes no holding. */
  lemma SelfTransferIsNoOp(l: Ledger, caller: AccountId, amount: nat)
    requires !l.paused && amount <= Get(l.balances, caller)
    ensures Transfer(l, caller, caller, amount).response == Ok(true)
    ensures SameState(Transfer(l, caller, caller, amount).next, l)
    ensures caller in l.balances ==> Transfer(l, caller, caller, amount).next == l
  {
    if caller in l.balances {
      assert Transfer(l, caller, caller, amount).next.balances == l.balances;
    }
  }

  /** Once the admin pauses the ledger, every holder-initiated call is refused with the pause
      error and changes nothing, while the admin can still mint and unpause. */
  lemma PauseBlocksHolders(l: Ledger, c: Call)
    requires l.paused
    requires c.TransferCall? || c.StakeCall? || c.UnstakeCall?
    ensures Apply(l, c) == Outcome(Err(Paused), l)
  {
  }

  lemma AdminPauseBlocksHolders(l: Ledger, c: Call)
    requires c.TransferCall? || c.StakeCall? || c.UnstakeCall?
    ensures Apply(SetPaused(l, l.admin, true).next, c).response == Err(Paused)
    ensures Apply(SetPaused(l, l.admin, true).next, c).next == SetPaused(l, l.admin, true).next
  {
  }

  /** The pause flag is never consulted by minting: paused or not, a mint answers the same. */
  lemma MintIgnoresPause(l: Ledger, caller: AccountId, recipient: AccountId, amount: nat, pause: bool)
    ensures Mint(l.(paused := pause), caller, recipient, amount).response == Mint(l, caller, recipient, amount).response
    ensures Mint(l.(paused := pause), caller, recipient, amount).next
         == Mint(l, caller, recipient, amount).next.(paused := pause)
  {
  }

  /** Pausing and then unpausing restores the ledger exactly. */
  lemma PauseUnpauseRoundTrip(l: Ledger)
    requires !l.paused
    ensures SetPaused(SetPaused(l, l.admin, true).next, l.admin, false).next == l
  {
  }

  /** Only the admin's calls can mint or toggle the pause, and the admin check comes first:
      a non-admin gets the unauthorized error whatever the other arguments are. */
  lemma NonAdminChangesNothing(l: Ledger, c: Call)
    requires c.SetPausedCall? || c.MintCall?
    requires c.caller != l.admin
    ensures Apply(l, c) == Outcome(Err(Unauthorized), l)
  {
  }
}
