/** The ledger's documented scenarios, each starting from a fresh ledger. */
module Scenarios {
  import opened Accounts
  import opened FanToken

  const Deployer: AccountId := "ST1PQHQKV0RJXZFY1DGX8MNSNYVE3VGZJSRTPGZGM"
  const Holder: AccountId := "ST2CY5..."
  const Other: AccountId := "ST3NB..."

  lemma AdminMints()
    ensures Mint(Init(Deployer), Deployer, Holder, 1000).response == Ok(true)
    ensures Get(Mint(Init(Deployer), Deployer, Holder, 1000).next.balances, Holder) == 1000
  {
  }

  lemma MintOverCapRejected()
    ensures Mint(Init(Deployer), Deployer, Holder, 200_000_000).response == Err(SupplyCapExceeded)
    ensures Code(Mint(Init(Deployer), Deployer, Holder, 200_000_000).response.error) == 103
    ensures Mint(Init(Deployer), Deployer, Holder, 200_000_000).next.totalSupply == 0
  {
  }

  lemma TransferScenario()
    ensures var minted := Mint(Init(Deployer), Deployer, Holder, 500).next;
            var r := Transfer(minted, Holder, Other, 200);
            r.response == Ok(true) && Get(r.next.balances, Holder) == 300 && Get(r.next.balances, Other) == 200
  {
  }

  lemma StakeScenario()
    ensures var minted := Mint(Init(Deployer), Deployer, Holder, 500).next;
            var r := Stake(minted, Holder, 200);
            r.response == Ok(true) && Get(r.next.balances, Holder) == 300 && Get(r.next.staked, Holder) == 200
  {
  }

  lemma UnstakeScenario()
    ensures var minted := Mint(Init(Deployer), Deployer, Holder, 500).next;
            var staked := Stake(minted, Holder, 200).next;
            var r := Unstake(staked, Holder, 100);
            r.response == Ok(true) && Get(r.next.staked, Holder) == 100 && Get(r.next.balances, Holder) == 400
  {
  }

  lemma PausedTransferRejected()
    ensures var paused := SetPaused(Init(Deployer), Deployer, true).next;
            var r := Transfer(paused, Holder, Other, 10);
            r.response == Err(Paused) && Code(r.response.error) == 104
  {
  }
}
