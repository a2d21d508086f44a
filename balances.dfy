/** Balance maps: lookup with a default of zero, their total, and the
    credit, debit and move updates the operations perform. */
module Balances {

  import opened TokenTypes

  /** The amount stored for `k`, zero when `k` has no entry. */
  function Get<K>(m: map<K, nat>, k: K): (v: nat)
    ensures k in m ==> v == m[k]
    ensures k !in m ==> v == 0
  {
    if k in m then m[k] else 0
  }

  /** Some key of a non-empty set, chosen deterministically. */
  ghost function Pick<K>(keys: set<K>): (k: K)
    requires keys != {}
    ensures k in keys
  {
    var k :| k in keys; k
  }

  /** The sum of all amounts in `m`. */
  ghost function Sum<K>(m: map<K, nat>): nat
    decreases |m|
  {
    if |m| == 0 then 0
    else
      var k := Pick(m.Keys);
      m[k] + Sum(m - {k})
  }

  /** Any entry can be split off the sum, not only the one Sum picks. */
  lemma {:induction false} SumRemove<K>(m: map<K, nat>, k: K)
    requires k in m
    ensures Sum(m) == m[k] + Sum(m - {k})
    decreases |m|
  {
    var p := Pick(m.Keys);
    if p != k {
      var rest := m - {p};
      assert k in rest;
      SumRemove(rest, k);
      assert rest - {k} == (m - {k}) - {p};
      assert p in m - {k};
      SumRemove(m - {k}, p);
    }
  }

  /** Overwriting one entry changes the sum by the difference. */
  lemma SumUpdate<K>(m: map<K, nat>, k: K, v: nat)
    ensures Sum(m[k := v]) == Sum(m) - Get(m, k) + v
  {
    var m' := m[k := v];
    SumRemove(m', k);
    if k in m {
      SumRemove(m, k);
      assert m' - {k} == m - {k};
    } else {
      assert m' - {k} == m;
    }
  }

  /** No single balance exceeds the total. */
  lemma SumBound<K>(m: map<K, nat>, k: K)
    ensures Get(m, k) <= Sum(m)
  {
    if k in m {
      SumRemove(m, k);
    }
  }

  /** Adds `amount` to the entry of `to`. */
  function Credit(m: map<Principal, nat>, to: Principal, amount: nat): (r: map<Principal, nat>)
    ensures Get(r, to) == Get(m, to) + amount
    ensures forall k :: k != to ==> Get(r, k) == Get(m, k)
    ensures Sum(r) == Sum(m) + amount
  {
    var v := Get(m, to) + amount;
    SumUpdate(m, to, v);
    m[to := v]
  }

  /** Takes `amount` from the entry of `from`, which holds at least that. */
  function Debit(m: map<Principal, nat>, from: Principal, amount: nat): (r: map<Principal, nat>)
    requires amount <= Get(m, from)
    ensures Get(r, from) == Get(m, from) - amount
    ensures forall k :: k != from ==> Get(r, k) == Get(m, k)
    ensures Sum(r) == Sum(m) - amount
  {
    var v := Get(m, from) - amount;
    SumUpdate(m, from, v);
    m[from := v]
  }

  /** Debits `from` and then credits `to`, reading the balance of `to`
      after the debit, so a move to oneself leaves every balance as it was. */
  function Move(m: map<Principal, nat>, from: Principal, to: Principal, amount: nat): (r: map<Principal, nat>)
    requires amount <= Get(m, from)
    ensures from != to ==> Get(r, from) == Get(m, from) - amount
    ensures from != to ==> Get(r, to) == Get(m, to) + amount
    ensures from == to ==> Get(r, from) == Get(m, from)
    ensures forall k :: k != from && k != to ==> Get(r, k) == Get(m, k)
    ensures Sum(r) == Sum(m)
  {
    Credit(Debit(m, from, amount), to, amount)
  }
}
