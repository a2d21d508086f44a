/** Allowance keys as the source builds them: the owner and the spender
    joined by a hyphen into one string. The ledger itself keys allowances
    by the (owner, spender) pair; this module shows where the two differ. */
module AllowanceKeys {

  import opened TokenTypes
  import opened Balances

  /** The string an allowance is filed under: owner, '-', spender. */
  function JoinedKey(owner: Principal, spender: Principal): (k: string)
    ensures |k| == |owner| + 1 + |spender|
    ensures k[..|owner|] == owner && k[|owner|] == '-' && k[|owner| + 1..] == spender
  {
    owner + "-" + spender
  }

  /** approve over string keys, as the source writes it. */
  function ApproveJoined(allowances: map<string, nat>, caller: Principal, spender: Principal, amount: nat)
    : (r: map<string, nat>)
    ensures Get(r, JoinedKey(caller, spender)) == amount
    ensures forall k :: k != JoinedKey(caller, spender) ==> Get(r, k) == Get(allowances, k)
  {
    allowances[JoinedKey(caller, spender) := amount]
  }

  /** As long as owners contain no hyphen, distinct pairs get distinct keys. */
  lemma JoinedKeyInjective(o1: Principal, s1: Principal, o2: Principal, s2: Principal)
    requires '-' !in o1 && '-' !in o2
    requires JoinedKey(o1, s1) == JoinedKey(o2, s2)
    ensures o1 == o2 && s1 == s2
  {
  }

  /** Once an owner contains a hyphen, two different pairs share a key, and
      an approval for one sets the allowance the other reads. */
  lemma JoinedKeysCollide()
    ensures ("a-b", "c") != ("a", "b-c")
    ensures JoinedKey("a-b", "c") == JoinedKey("a", "b-c")
    ensures Get(ApproveJoined(map[], "a-b", "c", 5), JoinedKey("a", "b-c")) == 5
  {
    assert ("a-b", "c").0 != ("a", "b-c").0;
    assert JoinedKey("a-b", "c") == "a-b-c" == JoinedKey("a", "b-c");
  }
}
