/** The cases of the engine's own test suite, replayed on the step
    functions. Every case starts from the state `reset` leaves, with the
    default admin calling at height zero; a case that switches caller
    passes a different `Env`, and a case that writes a limit directly
    starts from the state with that limit replaced. The accounts the cases
    name ("ST1USER", "ST2USER", ...) become parameters: each lemma holds
    for any accounts that are distinct where the case's are and are not
    the null principal. Since each method of `Token.CarbonCreditToken` is
    proved to do what its step function does, the object behaves the same
    way on these calls. */
module Scenarios {

  import opened TokenTypes
  import opened Balances
  import opened Ledger
  import opened LedgerProperties

  /** The state after `reset`, with the default supply cap. */
  const Start: LedgerState := Initial(DefaultMaxSupply)

  /** The default admin calling at height zero. */
  const Admin: Env := Env(DefaultAdmin, 0)

  /** Another account calling at height zero. */
  function As(caller: Principal): (env: Env)
    ensures env.caller == caller && env.height == 0
  {
    Env(caller, 0)
  }

  /** "mints tokens successfully": the recipient holds 1000, the supply is
      1000, the fee of 1000 is logged from the admin to itself, and the
      credit is filed under id 1000. */
  lemma MintsTokens(user: Principal)
    requires user != NullPrincipal
    ensures var m := Mint(Start, Admin, 1000, user, 1000, "ForestA", "forest", "ST1VERIFIER");
      && m.result == Ok(true)
      && Get(m.next.balances, user) == 1000
      && m.next.totalSupply == 1000
      && m.next.feeTransfers == [FeeTransfer(1000, "ST1ADMIN", "ST1ADMIN")]
      && 1000 in m.next.creditMetadata
      && m.next.creditMetadata[1000].offsetAmount == 1000
      && m.next.creditMetadata[1000].projectType == "forest"
  {
    assert "forest" in ProjectTypes;
    MintEarlyReturns(Start, Admin, 1000, user, 1000, "ForestA", "forest", "ST1VERIFIER");
  }

  /** "rejects mint when paused": code 107. */
  lemma RejectsMintWhenPaused(user: Principal)
    ensures var p := PauseMint(Start, Admin);
      var m := Mint(p.next, Admin, 1000, user, 1000, "ForestA", "forest", "ST1VERIFIER");
      && p.result == Ok(true)
      && m.result == Err(MintPaused) && m.result.error.Code() == 107
  {
    MintOutcome(PauseMint(Start, Admin).next, Admin, 1000, user, 1000, "ForestA", "forest", "ST1VERIFIER");
  }

  /** "transfers tokens successfully": 500 of the user's 1000 move to a
      second user. */
  lemma TransfersTokens(user: Principal, other: Principal)
    requires user != NullPrincipal && other != NullPrincipal && user != other
    ensures var m := Mint(Start, Admin, 1000, user, 1000, "ForestA", "forest", "ST1VERIFIER");
      var t := Transfer(m.next, As(user), 500, user, other);
      && t.result == Ok(true)
      && Get(t.next.balances, user) == 500
      && Get(t.next.balances, other) == 500
  {
    var m := Mint(Start, Admin, 1000, user, 1000, "ForestA", "forest", "ST1VERIFIER");
    MintsTokens(user);
    MintEarlyReturns(Start, Admin, 1000, user, 1000, "ForestA", "forest", "ST1VERIFIER");
    TransferEarlyReturns(m.next, As(user), 500, user, other);
  }

  /** "rejects transfer with insufficient balance": 1500 out of 1000 fails
      with code 104. */
  lemma RejectsTransferWithInsufficientBalance(user: Principal, other: Principal)
    requires user != NullPrincipal && other != NullPrincipal
    ensures var m := Mint(Start, Admin, 1000, user, 1000, "ForestA", "forest", "ST1VERIFIER");
      var t := Transfer(m.next, As(user), 1500, user, other);
      t.result == Err(InsufficientBalance) && t.result.error.Code() == 104
  {
    var m := Mint(Start, Admin, 1000, user, 1000, "ForestA", "forest", "ST1VERIFIER");
    MintsTokens(user);
    TransferOutcome(m.next, As(user), 1500, user, other);
  }

  /** "approves and transfers from successfully": the owner approves 600,
      the spender moves 500 of it to a recipient, and 100 remains approved. */
  lemma ApprovesAndTransfersFrom(owner: Principal, spender: Principal, recipient: Principal)
    requires owner != NullPrincipal && recipient != NullPrincipal && owner != recipient
    ensures var m := Mint(Start, Admin, 1000, owner, 1000, "ForestA", "forest", "ST1VERIFIER");
      var a := Approve(m.next, As(owner), spender, 600);
      var t := TransferFrom(a.next, As(spender), owner, recipient, 500);
      && a.result == Ok(true)
      && t.result == Ok(true)
      && Get(t.next.balances, owner) == 500
      && Get(t.next.balances, recipient) == 500
      && Get(t.next.allowances, (owner, spender)) == 100
  {
    var m := Mint(Start, Admin, 1000, owner, 1000, "ForestA", "forest", "ST1VERIFIER");
    MintsTokens(owner);
    MintEarlyReturns(Start, Admin, 1000, owner, 1000, "ForestA", "forest", "ST1VERIFIER");
    var a := Approve(m.next, As(owner), spender, 600);
    ApproveKeepsInv(m.next, As(owner), spender, 600);
    TransferFromEarlyReturns(a.next, As(spender), owner, recipient, 500);
  }

  /** "burns tokens successfully": the user retires 500 of its 1000, the
      supply drops to 500, and the reason is filed under id 500. */
  lemma BurnsTokens(user: Principal)
    requires user != NullPrincipal
    ensures var m := Mint(Start, Admin, 1000, user, 1000, "ForestA", "forest", "ST1VERIFIER");
      var b := Burn(m.next, As(user), 500, "Offset emissions");
      && b.result == Ok(true)
      && Get(b.next.balances, user) == 500
      && b.next.totalSupply == 500
      && 500 in b.next.creditRetirements
      && b.next.creditRetirements[500].reason == "Offset emissions"
  {
    var m := Mint(Start, Admin, 1000, user, 1000, "ForestA", "forest", "ST1VERIFIER");
    MintsTokens(user);
    MintEarlyReturns(Start, Admin, 1000, user, 1000, "ForestA", "forest", "ST1VERIFIER");
    BurnEarlyReturns(m.next, As(user), 500, "Offset emissions");
  }

  /** "rejects burn when paused": code 108. */
  lemma RejectsBurnWhenPaused(user: Principal)
    ensures var m := Mint(Start, Admin, 1000, user, 1000, "ForestA", "forest", "ST1VERIFIER");
      var p := PauseBurn(m.next, Admin);
      var b := Burn(p.next, As(user), 500, "Offset emissions");
      && p.result == Ok(true)
      && b.result == Err(BurnPaused) && b.result.error.Code() == 108
  {
    var m := Mint(Start, Admin, 1000, user, 1000, "ForestA", "forest", "ST1VERIFIER");
    MintOutcome(Start, Admin, 1000, user, 1000, "ForestA", "forest", "ST1VERIFIER");
    AdminOnlyOutcome(m.next, Admin, "");
    BurnOutcome(PauseBurn(m.next, Admin).next, As(user), 500, "Offset emissions");
  }

  /** "adds and removes issuer successfully": the count goes to 1 and
      back to 0. */
  lemma AddsAndRemovesIssuer(issuer: Principal)
    requires issuer != NullPrincipal
    ensures var a := AddIssuer(Start, Admin, issuer);
      var r := RemoveIssuer(a.next, Admin, issuer);
      && a.result == Ok(true)
      && issuer in a.next.issuers && a.next.issuerCount == 1
      && r.result == Ok(true)
      && issuer !in r.next.issuers && r.next.issuerCount == 0
  {
    AddIssuerEarlyReturns(Start, Admin, issuer);
    RemoveIssuerEarlyReturns(AddIssuer(Start, Admin, issuer).next, Admin, issuer);
  }

  /** "sets issuance fee successfully" */
  lemma SetsIssuanceFee()
    ensures var f := SetIssuanceFee(Start, Admin, 2000);
      f.result == Ok(true) && f.next.issuanceFee == 2000
  {
    SetIssuanceFeeOutcome(Start, Admin, 2000);
  }

  /** "sets grace period successfully" */
  lemma SetsGracePeriod()
    ensures var g := SetGracePeriod(Start, Admin, 288);
      g.result == Ok(true) && g.next.gracePeriod == 288
  {
    SetGracePeriodOutcome(Start, Admin, 288);
  }

  /** "rejects invalid grace period": 1441 is one past the bound; code 123. */
  lemma RejectsInvalidGracePeriod()
    ensures var g := SetGracePeriod(Start, Admin, 1441);
      g.result == Err(InvalidGracePeriod) && g.result.error.Code() == 123
  {
    SetGracePeriodOutcome(Start, Admin, 1441);
  }

  /** "rejects mint with invalid project type": code 115. */
  lemma RejectsMintWithInvalidProjectType(user: Principal)
    requires user != NullPrincipal
    ensures var m := Mint(Start, Admin, 1000, user, 1000, "ForestA", "invalid", "ST1VERIFIER");
      m.result == Err(InvalidProjectType) && m.result.error.Code() == 115
  {
    assert "invalid" !in ProjectTypes;
    MintOutcome(Start, Admin, 1000, user, 1000, "ForestA", "invalid", "ST1VERIFIER");
  }

  /** "rejects mint exceeding max supply": with the cap lowered to 1000, a
      mint of 1000 fills it and a further mint of 1 fails with code 105. */
  lemma RejectsMintExceedingMaxSupply(user: Principal)
    requires user != NullPrincipal
    ensures var capped := Start.(maxSupply := 1000);
      var m := Mint(capped, Admin, 1000, user, 1000, "ForestA", "forest", "ST1VERIFIER");
      var m2 := Mint(m.next, Admin, 1, user, 1, "ForestB", "forest", "ST1VERIFIER");
      && m.result == Ok(true)
      && m2.result == Err(MaxSupplyExceeded) && m2.result.error.Code() == 105
  {
    var capped := Start.(maxSupply := 1000);
    var m := Mint(capped, Admin, 1000, user, 1000, "ForestA", "forest", "ST1VERIFIER");
    assert "forest" in ProjectTypes;
    assert 0 < Utf16Length("ForestB") <= MaxLocationLength;
    MintEarlyReturns(capped, Admin, 1000, user, 1000, "ForestA", "forest", "ST1VERIFIER");
    MintOutcome(m.next, Admin, 1, user, 1, "ForestB", "forest", "ST1VERIFIER");
  }

  /** "rejects add issuer when max exceeded": with the limit set to 0, the
      first registration fails with code 120. */
  lemma RejectsAddIssuerWhenMaxExceeded(issuer: Principal)
    requires issuer != NullPrincipal
    ensures var a := AddIssuer(Start.(maxIssuers := 0), Admin, issuer);
      a.result == Err(MaxIssuersExceeded) && a.result.error.Code() == 120
  {
    AddIssuerOutcome(Start.(maxIssuers := 0), Admin, issuer);
  }
}
