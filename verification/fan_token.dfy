/** The fan-token ledger: one token, a liquid balance and a staked balance per
    account, a supply cap, and an admin who mints and pauses. Every operation is a
    pure function from the current ledger to a response and the next ledger. */
module FanToken {
  import opened Accounts

  /** The fixed ceiling on the total supply. */
  const MaxSupply: nat := 100_000_000

  datatype Error = Unauthorized | InsufficientBalance | InsufficientStake | SupplyCapExceeded | Paused

  /** The numeric code each error is reported with. */
  function Code(e: Error): (c: nat)
    ensures 100 <= c <= 104
  {
    match e
    case Unauthorized => 100
    case InsufficientBalance => 101
    case InsufficientStake => 102
    case SupplyCapExceeded => 103
    case Paused => 104
  }

  /** What an operation answers: `{value}` on success, `{error}` otherwise. */
  datatype Response = Ok(value: bool) | Err(error: Error)

  datatype Ledger = Ledger(
    admin: AccountId,
    paused: bool,
    totalSupply: nat,
    balances: map<AccountId, nat>,
    staked: map<AccountId, nat>)

  /** The response of an operation together with the ledger it leaves behind. */
  datatype Outcome = Outcome(response: Response, next: Ledger)

  /** Every token in the supply is held by someone, liquid or staked, and the supply is within the cap. */
  ghost predicate Valid(l: Ledger)
  {
    && l.totalSupply == Sum(l.balances) + Sum(l.staked)
    && l.totalSupply <= MaxSupply
  }

  /** A fresh ledger: not paused, nothing minted, nobody holding anything. */
  function Init(admin: AccountId): (l: Ledger)
    ensures l.admin == admin && !l.paused && l.totalSupply == 0
    ensures forall k :: Get(l.balances, k) == 0 && Get(l.staked, k) == 0
    ensures Valid(l)
  {
    Ledger(admin, false, 0, map[], map[])
  }

  /** The admin switches holder-initiated movement off or on. */
  function SetPaused(l: Ledger, caller: AccountId, pause: bool): (r: Outcome)
    ensures r.response == Err(Unauthorized) <==> caller != l.admin
    ensures caller != l.admin ==> r.next == l
    ensures caller == l.admin ==> r.response == Ok(pause) && r.next == l.(paused := pause)
  {
    if caller != l.admin then Outcome(Err(Unauthorized), l)
    else Outcome(Ok(pause), l.(paused := pause))
  }

  /** The admin issues `amount` new tokens to `recipient`, as long as the supply stays within the cap.
      Minting does not consult the pause flag. */
  function Mint(l: Ledger, caller: AccountId, recipient: AccountId, amount: nat): (r: Outcome)
    ensures r.response == Err(Unauthorized) <==> caller != l.admin
    ensures r.response == Err(SupplyCapExceeded) <==> caller == l.admin && l.totalSupply + amount > MaxSupply
    ensures r.response.Ok? <==> caller == l.admin && l.totalSupply + amount <= MaxSupply
    ensures r.response.Err? ==> r.next == l
    ensures r.response.Ok? ==>
      && r.response.value
      && r.next.admin == l.admin
      && r.next.paused == l.paused
      && r.next.totalSupply == l.totalSupply + amount
      && r.next.staked == l.staked
      && r.next.balances.Keys == l.balances.Keys + {recipient}
      && Get(r.next.balances, recipient) == Get(l.balances, recipient) + amount
      && forall k :: k != recipient ==> Get(r.next.balances, k) == Get(l.balances, k)
  {
    if caller != l.admin then Outcome(Err(Unauthorized), l)
    else if l.totalSupply + amount > MaxSupply then Outcome(Err(SupplyCapExceeded), l)
    else
      Outcome(Ok(true), l.(balances := Credit(l.balances, recipient, amount),
                           totalSupply := l.totalSupply + amount))
  }

  /** `caller` moves `amount` of its liquid balance to `recipient`. The recipient's entry is
      read after the caller's has been debited, so a transfer to oneself changes nothing. */
  function Transfer(l: Ledger, caller: AccountId, recipient: AccountId, amount: nat): (r: Outcome)
    ensures r.response == Err(Paused) <==> l.paused
    ensures r.response == Err(InsufficientBalance) <==> !l.paused && Get(l.balances, caller) < amount
    ensures r.response.Ok? <==> !l.paused && amount <= Get(l.balances, caller)
    ensures r.response.Err? ==> r.next == l
    ensures r.response.Ok? ==>
      && r.response.value
      && r.next == l.(balances := r.next.balances)
      && r.next.balances.Keys == l.balances.Keys + {caller, recipient}
      && (caller == recipient ==> Get(r.next.balances, caller) == Get(l.balances, caller))
      && (caller != recipient ==>
            && Get(r.next.balances, caller) + amount == Get(l.balances, caller)
            && Get(r.next.balances, recipient) == Get(l.balances, recipient) + amount)
      && forall k :: k != caller && k != recipient ==> Get(r.next.balances, k) == Get(l.balances, k)
  {
    if l.paused then Outcome(Err(Paused), l)
    else if Get(l.balances, caller) < amount then Outcome(Err(InsufficientBalance), l)
    else
      var debited := Debit(l.balances, caller, amount);
      Outcome(Ok(true), l.(balances := Credit(debited, recipient, amount)))
  }

  /** `caller` moves `amount` from its liquid balance to its staked balance. */
  function Stake(l: Ledger, caller: AccountId, amount: nat): (r: Outcome)
    ensures r.response == Err(Paused) <==> l.paused
    ensures r.response == Err(InsufficientBalance) <==> !l.paused && Get(l.balances, caller) < amount
    ensures r.response.Ok? <==> !l.paused && amount <= Get(l.balances, caller)
    ensures r.response.Err? ==> r.next == l
    ensures r.response.Ok? ==>
      && r.response.value
      && r.next == l.(balances := r.next.balances, staked := r.next.staked)
      && r.next.balances.Keys == l.balances.Keys + {caller}
      && r.next.staked.Keys == l.staked.Keys + {caller}
      && Get(r.next.balances, caller) + amount == Get(l.balances, caller)
      && Get(r.next.staked, caller) == Get(l.staked, caller) + amount
      && forall k :: k != caller ==>
           Get(r.next.balances, k) == Get(l.balances, k) && Get(r.next.staked, k) == Get(l.staked, k)
  {
    if l.paused then Outcome(Err(Paused), l)
    else if Get(l.balances, caller) < amount then Outcome(Err(InsufficientBalance), l)
    else
      Outcome(Ok(true), l.(balances := Debit(l.balances, caller, amount),
                           staked := Credit(l.staked, caller, amount)))
  }

  /** `caller` moves `amount` from its staked balance back to its liquid balance. */
  function Unstake(l: Ledger, caller: AccountId, amount: nat): (r: Outcome)
    ensures r.response == Err(Paused) <==> l.paused
    ensures r.response == Err(InsufficientStake) <==> !l.paused && Get(l.staked, caller) < amount
    ensures r.response.Ok? <==> !l.paused && amount <= Get(l.staked, caller)
    ensures r.response.Err? ==> r.next == l
    ensures r.response.Ok? ==>
      && r.response.value
      && r.next == l.(balances := r.next.balances, staked := r.next.staked)
      && r.next.balances.Keys == l.balances.Keys + {caller}
      && r.next.staked.Keys == l.staked.Keys + {caller}
      && Get(r.next.staked, caller) + amount == Get(l.staked, caller)
      && Get(r.next.balances, caller) == Get(l.balances, caller) + amount
      && forall k :: k != caller ==>
           Get(r.next.balances, k) == Get(l.balances, k) && Get(r.next.staked, k) == Get(l.staked, k)
  {
    if l.paused then Outcome(Err(Paused), l)
    else if Get(l.staked, caller) < amount then Outcome(Err(InsufficientStake), l)
    else
      Outcome(Ok(true), l.(staked := Debit(l.staked, caller, amount),
                           balances := Credit(l.balances, caller, amount)))
  }

  /** One call to the ledger, with the caller and the arguments it was made with. */
  datatype Call =
    | SetPausedCall(caller: AccountId, pause: bool)
    | MintCall(caller: AccountId, recipient: AccountId, amount: nat)
    | TransferCall(caller: AccountId, recipient: AccountId, amount: nat)
    | StakeCall(caller: AccountId, amount: nat)
    | UnstakeCall(caller: AccountId, amount: nat)

  function Apply(l: Ledger, c: Call): Outcome
  {
    match c
    case SetPausedCall(caller, pause) => SetPaused(l, caller, pause)
    case MintCall(caller, recipient, amount) => Mint(l, caller, recipient, amount)
    case TransferCall(caller, recipient, amount) => Transfer(l, caller, recipient, amount)
    case StakeCall(caller, amount) => Stake(l, caller, amount)
    case UnstakeCall(caller, amount) => Unstake(l, caller, amount)
  }

  /** The ledger after a sequence of calls, each applied to the ledger the previous one left. */
  function Run(l: Ledger, calls: seq<Call>): Ledger
    decreases |calls|
  {
    if |calls| == 0 then l else Run(Apply(l, calls[0]).next, calls[1..])
  }
}
