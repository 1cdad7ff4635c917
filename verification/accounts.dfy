/** Account holdings: finite maps from account identifiers to amounts, in which an
    account with no entry holds zero, and the total held across all accounts. */
module Accounts {

  /** Account identifiers are opaque; only equality is used. */
  type AccountId = string

  /** The amount held by `k`; an account that was never credited holds zero. */
  function Get(m: map<AccountId, nat>, k: AccountId): nat
  {
    if k in m then m[k] else 0
  }

  /** Adds `amount` to the entry of `k`, creating the entry if it is missing. */
  function Credit(m: map<AccountId, nat>, k: AccountId, amount: nat): (r: map<AccountId, nat>)
    ensures r.Keys == m.Keys + {k}
    ensures Get(r, k) == Get(m, k) + amount
    ensures forall j :: j != k ==> Get(r, j) == Get(m, j)
  {
    m[k := Get(m, k) + amount]
  }

  /** Takes `amount` from the entry of `k`; the caller has checked that it is there to take. */
  function Debit(m: map<AccountId, nat>, k: AccountId, amount: nat): (r: map<AccountId, nat>)
    requires amount <= Get(m, k)
    ensures r.Keys == m.Keys + {k}
    ensures Get(r, k) + amount == Get(m, k)
    ensures forall j :: j != k ==> Get(r, j) == Get(m, j)
  {
    m[k := Get(m, k) - amount]
  }

  /** Two holding maps agree on every account once a missing entry is read as zero. */
  ghost predicate SameHoldings(a: map<AccountId, nat>, b: map<AccountId, nat>)
  {
    forall k :: Get(a, k) == Get(b, k)
  }

  /** The total amount held across all accounts. */
  ghost function Sum(m: map<AccountId, nat>): nat
    decreases |m|
  {
    if m == map[] then 0
    else
      var k :| k in m;
      m[k] + Sum(m - {k})
  }

  /** Any entry can be split off the total, not only the one `Sum` happens to pick. */
  lemma {:induction false} SumRemove(m: map<AccountId, nat>, k: AccountId)
    requires k in m
    ensures Sum(m) == m[k] + Sum(m - {k})
    decreases |m|
  {
    var j :| j in m && Sum(m) == m[j] + Sum(m - {j});
    if j != k {
      SumRemove(m - {j}, k);
      SumRemove(m - {k}, j);
      assert (m - {j}) - {k} == (m - {k}) - {j};
    }
  }

  /** Overwriting one entry changes the total by the difference between the new and the old amount. */
  lemma SumSet(m: map<AccountId, nat>, k: AccountId, v: nat)
    ensures Sum(m[k := v]) + Get(m, k) == Sum(m) + v
  {
    SumRemove(m[k := v], k);
    assert m[k := v] - {k} == m - {k};
    if k in m {
      SumRemove(m, k);
    } else {
      assert m - {k} == m;
    }
  }

  /** A credit raises the total by exactly the amount credited. */
  lemma SumCredit(m: map<AccountId, nat>, k: AccountId, amount: nat)
    ensures Sum(Credit(m, k, amount)) == Sum(m) + amount
  {
    SumSet(m, k, Get(m, k) + amount);
  }

  /** A debit lowers the total by exactly the amount debited. */
  lemma SumDebit(m: map<AccountId, nat>, k: AccountId, amount: nat)
    requires amount <= Get(m, k)
    ensures Sum(Debit(m, k, amount)) + amount == Sum(m)
  {
    SumSet(m, k, Get(m, k) - amount);
  }

  /** No single account holds more than the total held across all accounts. */
  lemma GetWithinSum(m: map<AccountId, nat>, k: AccountId)
    ensures Get(m, k) <= Sum(m)
  {
    if k in m {
      SumRemove(m, k);
    }
  }
}
