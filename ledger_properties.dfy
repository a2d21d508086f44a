/** What the ledger promises: which single error each operation reports,
    that every operation keeps the invariant, and the round trips and
    overwrites that several operations in a row produce. */
module LedgerProperties {

  import opened TokenTypes
  import opened Balances
  import opened Ledger

  // ---------------------------------------------------------------------
  // The first failing check decides the error

  /** transfer: caller, amount, recipient, balance, in that order. */
  lemma TransferOutcome(s: LedgerState, env: Env, amount: int, sender: Principal, recipient: Principal)
    ensures var r := Transfer(s, env, amount, sender, recipient).result;
      && (r == Err(NotAuthorized) <==> env.caller != sender)
      && (r == Err(InvalidAmount) <==> env.caller == sender && amount <= 0)
      && (r == Err(InvalidRecipient) <==> env.caller == sender && amount > 0 && recipient == NullPrincipal)
      && (r == Err(InsufficientBalance) <==>
            env.caller == sender && amount > 0 && recipient != NullPrincipal && Get(s.balances, sender) < amount)
      && (r == Ok(true) <==>
            env.caller == sender && amount > 0 && recipient != NullPrincipal && amount <= Get(s.balances, sender))
  {
    var checks := TransferChecks(s, env, amount, sender, recipient);
    assert checks[0..] == checks;
    FirstFailureFrom(checks, 0);
    FirstFailureFrom(checks, 1);
    FirstFailureFrom(checks, 2);
    FirstFailureFrom(checks, 3);
    FirstFailureFrom(checks, 4);
  }

  /** approve: only the amount is checked. */
  lemma ApproveOutcome(s: LedgerState, env: Env, spender: Principal, amount: int)
    ensures var r := Approve(s, env, spender, amount).result;
      && (r == Err(InvalidAmount) <==> amount <= 0)
      && (r == Ok(true) <==> amount > 0)
  {
  }

  /** transfer-from: amount, recipient, allowance, balance, in that order. */
  lemma TransferFromOutcome(s: LedgerState, env: Env, owner: Principal, recipient: Principal, amount: int)
    ensures var r := TransferFrom(s, env, owner, recipient, amount).result;
      var allowance := Get(s.allowances, (owner, env.caller));
      && (r == Err(InvalidAmount) <==> amount <= 0)
      && (r == Err(InvalidRecipient) <==> amount > 0 && recipient == NullPrincipal)
      && (r == Err(NotAuthorized) <==> amount > 0 && recipient != NullPrincipal && allowance < amount)
      && (r == Err(InsufficientBalance) <==>
            amount > 0 && recipient != NullPrincipal && amount <= allowance && Get(s.balances, owner) < amount)
      && (r == Ok(true) <==>
            amount > 0 && recipient != NullPrincipal && amount <= allowance && amount <= Get(s.balances, owner))
  {
    var checks := TransferFromChecks(s, env, owner, recipient, amount);
    assert checks[0..] == checks;
    FirstFailureFrom(checks, 0);
    FirstFailureFrom(checks, 1);
    FirstFailureFrom(checks, 2);
    FirstFailureFrom(checks, 3);
    FirstFailureFrom(checks, 4);
  }

  /** mint: admin, pause, amount, recipient, metadata, project type,
      location length, supply cap, in that order. Location lengths are
      counted in UTF-16 code units. */
  lemma MintOutcome(s: LedgerState, env: Env, amount: int, recipient: Principal, offsetAmount: int,
                    location: string, projectType: string, verifier: Principal)
    ensures var r := Mint(s, env, amount, recipient, offsetAmount, location, projectType, verifier).result;
      var metadataOk := offsetAmount > 0 && Utf16Length(location) > 0 && |projectType| > 0;
      && (r == Err(NotAuthorized) <==> env.caller != s.admin)
      && (r == Err(MintPaused) <==> env.caller == s.admin && s.mintPaused)
      && (r == Err(InvalidAmount) <==> env.caller == s.admin && !s.mintPaused && amount <= 0)
      && (r == Err(InvalidRecipient) <==>
            env.caller == s.admin && !s.mintPaused && amount > 0 && recipient == NullPrincipal)
      && (r == Err(InvalidMetadata) <==>
            env.caller == s.admin && !s.mintPaused && amount > 0 && recipient != NullPrincipal && !metadataOk)
      && (r == Err(InvalidProjectType) <==>
            env.caller == s.admin && !s.mintPaused && amount > 0 && recipient != NullPrincipal && metadataOk
            && projectType !in ProjectTypes)
      && (r == Err(InvalidLocation) <==>
            env.caller == s.admin && !s.mintPaused && amount > 0 && recipient != NullPrincipal && metadataOk
            && projectType in ProjectTypes && Utf16Length(location) > MaxLocationLength)
      && (r == Err(MaxSupplyExceeded) <==>
            env.caller == s.admin && !s.mintPaused && amount > 0 && recipient != NullPrincipal && metadataOk
            && projectType in ProjectTypes && Utf16Length(location) <= MaxLocationLength
            && s.totalSupply + amount > s.maxSupply)
      && (r == Ok(true) <==>
            env.caller == s.admin && !s.mintPaused && amount > 0 && recipient != NullPrincipal && metadataOk
            && projectType in ProjectTypes && Utf16Length(location) <= MaxLocationLength
            && s.totalSupply + amount <= s.maxSupply)
  {
    var checks := MintChecks(s, env, amount, recipient, offsetAmount, location, projectType);
    assert checks[0..] == checks;
    FirstFailureFrom(checks, 0);
    FirstFailureFrom(checks, 1);
    FirstFailureFrom(checks, 2);
    FirstFailureFrom(checks, 3);
    FirstFailureFrom(checks, 4);
    FirstFailureFrom(checks, 5);
    FirstFailureFrom(checks, 6);
    FirstFailureFrom(checks, 7);
    FirstFailureFrom(checks, 8);
  }

  /** The eight checks of mint report eight different errors, so the code
      returned tells which check failed first, and only that one. */
  lemma MintErrorIdentifiesCheck(s: LedgerState, env: Env, amount: int, recipient: Principal, offsetAmount: int,
                                 location: string, projectType: string, verifier: Principal, i: int)
    requires 0 <= i < 8
    ensures var checks := MintChecks(s, env, amount, recipient, offsetAmount, location, projectType);
      Mint(s, env, amount, recipient, offsetAmount, location, projectType, verifier).result == Err(checks[i].error)
      <==> FailsFirstAt(checks, i)
  {
    var checks := MintChecks(s, env, amount, recipient, offsetAmount, location, projectType);
    FirstFailureIdentifiesCheck(checks, i);
  }

  /** The location bound counts UTF-16 code units: a location of more than
      50 characters that all lie above the Basic Multilingual Plane is over
      the 100-unit bound, and an otherwise acceptable mint fails with 114. */
  lemma MintCountsLocationInCodeUnits(s: LedgerState, env: Env, amount: int, recipient: Principal,
                                      offsetAmount: int, location: string, projectType: string,
                                      verifier: Principal)
    requires env.caller == s.admin && !s.mintPaused && amount > 0 && recipient != NullPrincipal
    requires offsetAmount > 0 && projectType in ProjectTypes
    requires 50 < |location| <= MaxLocationLength
    requires forall i :: 0 <= i < |location| ==> (location[i] as int) >= 0x10000
    ensures Mint(s, env, amount, recipient, offsetAmount, location, projectType, verifier).result == Err(InvalidLocation)
  {
    Utf16LengthOfAstral(location);
    MintOutcome(s, env, amount, recipient, offsetAmount, location, projectType, verifier);
  }

  /** burn: pause, amount, reason, balance, in that order. */
  lemma BurnOutcome(s: LedgerState, env: Env, amount: int, reason: string)
    requires SupplyConserved(s)
    ensures var r := Burn(s, env, amount, reason).result;
      && (r == Err(BurnPaused) <==> s.burnPaused)
      && (r == Err(InvalidAmount) <==> !s.burnPaused && amount <= 0)
      && (r == Err(InvalidRetirementReason) <==> !s.burnPaused && amount > 0 && |reason| == 0)
      && (r == Err(InsufficientBalance) <==>
            !s.burnPaused && amount > 0 && |reason| > 0 && Get(s.balances, env.caller) < amount)
      && (r == Ok(true) <==>
            !s.burnPaused && amount > 0 && |reason| > 0 && amount <= Get(s.balances, env.caller))
  {
    var checks := BurnChecks(s, env, amount, reason);
    assert checks[0..] == checks;
    FirstFailureFrom(checks, 0);
    FirstFailureFrom(checks, 1);
    FirstFailureFrom(checks, 2);
    FirstFailureFrom(checks, 3);
    FirstFailureFrom(checks, 4);
  }

  /** add-issuer: admin, null principal, already registered, cap, in that order. */
  lemma AddIssuerOutcome(s: LedgerState, env: Env, issuer: Principal)
    ensures var r := AddIssuer(s, env, issuer).result;
      && (r == Err(NotAuthorized) <==> env.caller != s.admin)
      && (r == Err(InvalidRecipient) <==> env.caller == s.admin && issuer == NullPrincipal)
      && (r == Err(AlreadyIssued) <==> env.caller == s.admin && issuer != NullPrincipal && issuer in s.issuers)
      && (r == Err(MaxIssuersExceeded) <==>
            env.caller == s.admin && issuer != NullPrincipal && issuer !in s.issuers && s.issuerCount >= s.maxIssuers)
      && (r == Ok(true) <==>
            env.caller == s.admin && issuer != NullPrincipal && issuer !in s.issuers && s.issuerCount < s.maxIssuers)
  {
    var checks := AddIssuerChecks(s, env, issuer);
    assert checks[0..] == checks;
    FirstFailureFrom(checks, 0);
    FirstFailureFrom(checks, 1);
    FirstFailureFrom(checks, 2);
    FirstFailureFrom(checks, 3);
    FirstFailureFrom(checks, 4);
  }

  /** remove-issuer: admin, then registration. */
  lemma RemoveIssuerOutcome(s: LedgerState, env: Env, issuer: Principal)
    requires s.issuerCount == |s.issuers|
    ensures var r := RemoveIssuer(s, env, issuer).result;
      && (r == Err(NotAuthorized) <==> env.caller != s.admin)
      && (r == Err(InvalidIssuer) <==> env.caller == s.admin && issuer !in s.issuers)
      && (r == Ok(true) <==> env.caller == s.admin && issuer in s.issuers)
  {
    var checks := RemoveIssuerChecks(s, env, issuer);
    assert checks[0..] == checks;
    FirstFailureFrom(checks, 0);
    FirstFailureFrom(checks, 1);
    FirstFailureFrom(checks, 2);
  }

  /** set-issuance-fee: admin, then a positive fee. */
  lemma SetIssuanceFeeOutcome(s: LedgerState, env: Env, fee: int)
    ensures var r := SetIssuanceFee(s, env, fee).result;
      && (r == Err(NotAuthorized) <==> env.caller != s.admin)
      && (r == Err(InvalidFee) <==> env.caller == s.admin && fee <= 0)
      && (r == Ok(true) <==> env.caller == s.admin && fee > 0)
  {
    var checks := SetIssuanceFeeChecks(s, env, fee);
    assert checks[0..] == checks;
    FirstFailureFrom(checks, 0);
    FirstFailureFrom(checks, 1);
    FirstFailureFrom(checks, 2);
  }

  /** set-grace-period: admin, then the 1440-block bound. */
  lemma SetGracePeriodOutcome(s: LedgerState, env: Env, period: int)
    ensures var r := SetGracePeriod(s, env, period).result;
      && (r == Err(NotAuthorized) <==> env.caller != s.admin)
      && (r == Err(InvalidGracePeriod) <==> env.caller == s.admin && period > MaxGracePeriod)
      && (r == Ok(true) <==> env.caller == s.admin && period <= MaxGracePeriod)
  {
    var checks := SetGracePeriodChecks(s, env, period);
    assert checks[0..] == checks;
    FirstFailureFrom(checks, 0);
    FirstFailureFrom(checks, 1);
    FirstFailureFrom(checks, 2);
  }

  /** The switches and the URI setter check only that the caller is the admin. */
  lemma AdminOnlyOutcome(s: LedgerState, env: Env, uri: string)
    ensures var admin := env.caller == s.admin;
      && (SetTokenUri(s, env, uri).result == Ok(true) <==> admin)
      && (SetTokenUri(s, env, uri).result == Err(NotAuthorized) <==> !admin)
      && (PauseMint(s, env).result == Ok(true) <==> admin)
      && (PauseMint(s, env).result == Err(NotAuthorized) <==> !admin)
      && (UnpauseMint(s, env).result == Ok(true) <==> admin)
      && (UnpauseMint(s, env).result == Err(NotAuthorized) <==> !admin)
      && (PauseBurn(s, env).result == Ok(true) <==> admin)
      && (PauseBurn(s, env).result == Err(NotAuthorized) <==> !admin)
      && (UnpauseBurn(s, env).result == Ok(true) <==> admin)
      && (UnpauseBurn(s, env).result == Err(NotAuthorized) <==> !admin)
  {
    var checks := [AdminCheck(s, env)];
    assert checks[0..] == checks;
    FirstFailureFrom(checks, 0);
    FirstFailureFrom(checks, 1);
  }

  // ---------------------------------------------------------------------
  // Each operation as a chain of early returns
  //
  // The source tests its guards one after another and returns at the first
  // that fails; only when all pass does it apply its effects. These lemmas
  // show the check-list definitions agree with that reading, and that the
  // state reached keeps the invariant.

  /** transfer: the early returns in source order, then the move. */
  lemma TransferEarlyReturns(s: LedgerState, env: Env, amount: int, sender: Principal, recipient: Principal)
    requires Inv(s)
    ensures var step := Transfer(s, env, amount, sender, recipient);
      && step == (if env.caller != sender then Step(s, Err(NotAuthorized))
                  else if amount <= 0 then Step(s, Err(InvalidAmount))
                  else if recipient == NullPrincipal then Step(s, Err(InvalidRecipient))
                  else if Get(s.balances, sender) < amount then Step(s, Err(InsufficientBalance))
                  else Step(s.(balances := Move(s.balances, sender, recipient, amount)), Ok(true)))
      && Inv(step.next)
  {
    TransferOutcome(s, env, amount, sender, recipient);
    TransferKeepsInv(s, env, amount, sender, recipient);
  }

  /** transfer-from: the early returns in source order, then the move and
      the allowance decrement. */
  lemma TransferFromEarlyReturns(s: LedgerState, env: Env, owner: Principal, recipient: Principal, amount: int)
    requires Inv(s)
    ensures var step := TransferFrom(s, env, owner, recipient, amount);
      var allowance := Get(s.allowances, (owner, env.caller));
      && step == (if amount <= 0 then Step(s, Err(InvalidAmount))
                  else if recipient == NullPrincipal then Step(s, Err(InvalidRecipient))
                  else if allowance < amount then Step(s, Err(NotAuthorized))
                  else if Get(s.balances, owner) < amount then Step(s, Err(InsufficientBalance))
                  else Step(s.(balances := Move(s.balances, owner, recipient, amount),
                               allowances := s.allowances[(owner, env.caller) := allowance - amount]),
                            Ok(true)))
      && Inv(step.next)
  {
    TransferFromOutcome(s, env, owner, recipient, amount);
    TransferFromKeepsInv(s, env, owner, recipient, amount);
  }

  /** mint: the early returns in source order, then the four effects. */
  lemma MintEarlyReturns(s: LedgerState, env: Env, amount: int, recipient: Principal, offsetAmount: int,
                         location: string, projectType: string, verifier: Principal)
    requires Inv(s)
    ensures var step := Mint(s, env, amount, recipient, offsetAmount, location, projectType, verifier);
      && step == (if env.caller != s.admin then Step(s, Err(NotAuthorized))
                  else if s.mintPaused then Step(s, Err(MintPaused))
                  else if amount <= 0 then Step(s, Err(InvalidAmount))
                  else if recipient == NullPrincipal then Step(s, Err(InvalidRecipient))
                  else if offsetAmount <= 0 || Utf16Length(location) == 0 || |projectType| == 0 then
                    Step(s, Err(InvalidMetadata))
                  else if projectType !in ProjectTypes then Step(s, Err(InvalidProjectType))
                  else if Utf16Length(location) == 0 || Utf16Length(location) > MaxLocationLength then
                    Step(s, Err(InvalidLocation))
                  else if s.totalSupply + amount > s.maxSupply then Step(s, Err(MaxSupplyExceeded))
                  else
                    var id := s.totalSupply + amount;
                    Step(s.(balances := s.balances[recipient := Get(s.balances, recipient) + amount],
                            totalSupply := id,
                            creditMetadata := s.creditMetadata[id := CreditMetadata(offsetAmount, env.height, location,
                                                                                    projectType, verifier, true)],
                            feeTransfers := s.feeTransfers + [FeeTransfer(s.issuanceFee, env.caller, s.admin)]),
                         Ok(true)))
      && Inv(step.next)
  {
    MintOutcome(s, env, amount, recipient, offsetAmount, location, projectType, verifier);
    MintKeepsInv(s, env, amount, recipient, offsetAmount, location, projectType, verifier);
  }

  /** burn: the early returns in source order, then the debit, the lower
      supply and the retirement record. */
  lemma BurnEarlyReturns(s: LedgerState, env: Env, amount: int, reason: string)
    requires Inv(s)
    ensures var step := Burn(s, env, amount, reason);
      && step == (if s.burnPaused then Step(s, Err(BurnPaused))
                  else if amount <= 0 then Step(s, Err(InvalidAmount))
                  else if |reason| == 0 then Step(s, Err(InvalidRetirementReason))
                  else if Get(s.balances, env.caller) < amount then Step(s, Err(InsufficientBalance))
                  else
                    SumBound(s.balances, env.caller);
                    var id := s.totalSupply - amount;
                    Step(s.(balances := Debit(s.balances, env.caller, amount),
                            totalSupply := id,
                            creditRetirements := s.creditRetirements[id := CreditRetirement(reason, env.height,
                                                                                            env.caller)]),
                         Ok(true)))
      && Inv(step.next)
  {
    BurnOutcome(s, env, amount, reason);
    BurnKeepsInv(s, env, amount, reason);
  }

  /** add-issuer: the early returns in source order, then the registration. */
  lemma AddIssuerEarlyReturns(s: LedgerState, env: Env, issuer: Principal)
    requires Inv(s)
    ensures var step := AddIssuer(s, env, issuer);
      && step == (if env.caller != s.admin then Step(s, Err(NotAuthorized))
                  else if issuer == NullPrincipal then Step(s, Err(InvalidRecipient))
                  else if issuer in s.issuers then Step(s, Err(AlreadyIssued))
                  else if s.issuerCount >= s.maxIssuers then Step(s, Err(MaxIssuersExceeded))
                  else Step(s.(issuers := s.issuers + {issuer}, issuerCount := s.issuerCount + 1), Ok(true)))
      && Inv(step.next)
  {
    AddIssuerOutcome(s, env, issuer);
    AddIssuerKeepsInv(s, env, issuer);
  }

  /** remove-issuer: the early returns in source order, then the removal. */
  lemma RemoveIssuerEarlyReturns(s: LedgerState, env: Env, issuer: Principal)
    requires Inv(s)
    ensures var step := RemoveIssuer(s, env, issuer);
      && step == (if env.caller != s.admin then Step(s, Err(NotAuthorized))
                  else if issuer !in s.issuers then Step(s, Err(InvalidIssuer))
                  else Step(s.(issuers := s.issuers - {issuer}, issuerCount := s.issuerCount - 1), Ok(true)))
      && Inv(step.next)
  {
    RemoveIssuerOutcome(s, env, issuer);
    RemoveIssuerKeepsInv(s, env, issuer);
  }

  // ---------------------------------------------------------------------
  // Every operation keeps the invariant

  lemma TransferKeepsInv(s: LedgerState, env: Env, amount: int, sender: Principal, recipient: Principal)
    requires Inv(s)
    ensures Inv(Transfer(s, env, amount, sender, recipient).next)
  {
    TransferOutcome(s, env, amount, sender, recipient);
  }

  lemma ApproveKeepsInv(s: LedgerState, env: Env, spender: Principal, amount: int)
    requires Inv(s)
    ensures Inv(Approve(s, env, spender, amount).next)
  {
  }

  lemma TransferFromKeepsInv(s: LedgerState, env: Env, owner: Principal, recipient: Principal, amount: int)
    requires Inv(s)
    ensures Inv(TransferFrom(s, env, owner, recipient, amount).next)
  {
    TransferFromOutcome(s, env, owner, recipient, amount);
  }

  /** In particular, mint never lifts the supply past its cap. */
  lemma MintKeepsInv(s: LedgerState, env: Env, amount: int, recipient: Principal, offsetAmount: int,
                     location: string, projectType: string, verifier: Principal)
    requires Inv(s)
    ensures Inv(Mint(s, env, amount, recipient, offsetAmount, location, projectType, verifier).next)
  {
    var r := Mint(s, env, amount, recipient, offsetAmount, location, projectType, verifier);
    MintOutcome(s, env, amount, recipient, offsetAmount, location, projectType, verifier);
    if r.result.Ok? {
      var t := r.next;
      assert RecordsValid(t) by {
        forall id | id in t.creditMetadata
          ensures 0 < id <= t.maxSupply && MetadataValid(t.creditMetadata[id])
        {
          if id != t.totalSupply {
            assert id in s.creditMetadata;
          }
        }
      }
      assert FeeLogValid(t) by {
        forall i | 0 <= i < |t.feeTransfers|
          ensures t.feeTransfers[i].amount > 0 && t.feeTransfers[i].from == t.admin && t.feeTransfers[i].to == t.admin
        {
          if i < |s.feeTransfers| {
            assert t.feeTransfers[i] == s.feeTransfers[i];
          }
        }
      }
    }
  }

  lemma BurnKeepsInv(s: LedgerState, env: Env, amount: int, reason: string)
    requires Inv(s)
    ensures Inv(Burn(s, env, amount, reason).next)
  {
    var r := Burn(s, env, amount, reason);
    BurnOutcome(s, env, amount, reason);
    if r.result.Ok? {
      var t := r.next;
      assert RecordsValid(t) by {
        forall id | id in t.creditRetirements
          ensures id < t.maxSupply && |t.creditRetirements[id].reason| > 0
        {
          if id != t.totalSupply {
            assert id in s.creditRetirements;
          }
        }
      }
    }
  }

  /** In particular, the issuer count stays the size of the registry and
      within its cap. */
  lemma AddIssuerKeepsInv(s: LedgerState, env: Env, issuer: Principal)
    requires Inv(s)
    ensures Inv(AddIssuer(s, env, issuer).next)
  {
    AddIssuerOutcome(s, env, issuer);
  }

  lemma RemoveIssuerKeepsInv(s: LedgerState, env: Env, issuer: Principal)
    requires Inv(s)
    ensures Inv(RemoveIssuer(s, env, issuer).next)
  {
    var r := RemoveIssuer(s, env, issuer);
    if r.result.Ok? {
      assert |s.issuers - {issuer}| == |s.issuers| - 1;
    }
  }

  // ---------------------------------------------------------------------
  // Properties of several calls

  /** A second approval replaces the first: approving x and then y leaves y. */
  lemma ApproveTwiceKeepsLast(s: LedgerState, env: Env, spender: Principal, x: int, y: int)
    requires x > 0 && y > 0
    ensures var s1 := Approve(s, env, spender, x).next;
      var s2 := Approve(s1, env, spender, y).next;
      && Get(s2.allowances, (env.caller, spender)) == y
      && s2 == Approve(s, env, spender, y).next
  {
    var s1 := Approve(s, env, spender, x).next;
    assert s1.allowances[(env.caller, spender) := y] == s.allowances[(env.caller, spender) := y];
  }

  /** Minting to R and then burning the same amount as R restores the total
      supply and R's balance, while both a credit and a retirement record
      remain. */
  lemma MintThenBurnRestoresSupply(s: LedgerState, admin: Env, holder: Env, amount: int, offsetAmount: int,
                                   location: string, projectType: string, verifier: Principal, reason: string)
    requires Inv(s)
    requires Mint(s, admin, amount, holder.caller, offsetAmount, location, projectType, verifier).result == Ok(true)
    requires !s.burnPaused && |reason| > 0
    ensures var s1 := Mint(s, admin, amount, holder.caller, offsetAmount, location, projectType, verifier).next;
      var b := Burn(s1, holder, amount, reason);
      && b.result == Ok(true)
      && b.next.totalSupply == s.totalSupply
      && Get(b.next.balances, holder.caller) == Get(s.balances, holder.caller)
      && s.totalSupply + amount in b.next.creditMetadata
      && s.totalSupply in b.next.creditRetirements
  {
    var m := Mint(s, admin, amount, holder.caller, offsetAmount, location, projectType, verifier);
    MintOutcome(s, admin, amount, holder.caller, offsetAmount, location, projectType, verifier);
    MintKeepsInv(s, admin, amount, holder.caller, offsetAmount, location, projectType, verifier);
    BurnOutcome(m.next, holder, amount, reason);
  }

  /** Credit identifiers are supply values, so a mint that brings the supply
      back to a value it had before overwrites the record stored there:
      mint a, burn a, mint a again, and the first mint's record is gone. */
  lemma CreditIdentifierReused(s: LedgerState, admin: Env, amount: int, offsetAmount: int, location: string,
                               projectType: string, verifier: Principal, reason: string,
                               later: Env, secondOffset: int, secondVerifier: Principal)
    requires SupplyConserved(s)
    requires admin.caller == s.admin && later.caller == s.admin
    requires Mint(s, admin, amount, s.admin, offsetAmount, location, projectType, verifier).result == Ok(true)
    requires secondOffset > 0
    requires !s.burnPaused && |reason| > 0
    ensures var s1 := Mint(s, admin, amount, s.admin, offsetAmount, location, projectType, verifier).next;
      var id := s1.totalSupply;
      var s2 := Burn(s1, admin, amount, reason).next;
      var s3 := Mint(s2, later, amount, s.admin, secondOffset, location, projectType, secondVerifier).next;
      && id in s1.creditMetadata
      && s1.creditMetadata[id] == CreditMetadata(offsetAmount, admin.height, location, projectType, verifier, true)
      && id in s3.creditMetadata
      && s3.creditMetadata[id] == CreditMetadata(secondOffset, later.height, location, projectType, secondVerifier, true)
      && s3.totalSupply == id == s.totalSupply + amount
  {
    var m := Mint(s, admin, amount, s.admin, offsetAmount, location, projectType, verifier);
    MintOutcome(s, admin, amount, s.admin, offsetAmount, location, projectType, verifier);
    assert m.result == Ok(true);
    assert m.next.totalSupply == s.totalSupply + amount;
    assert m.next.creditMetadata == s.creditMetadata[m.next.totalSupply :=
      CreditMetadata(offsetAmount, admin.height, location, projectType, verifier, true)];
    var b := Burn(m.next, admin, amount, reason);
    BurnOutcome(m.next, admin, amount, reason);
    assert b.result == Ok(true);
    assert b.next.totalSupply == s.totalSupply && b.next.maxSupply == s.maxSupply;
    var m2 := Mint(b.next, later, amount, s.admin, secondOffset, location, projectType, secondVerifier);
    MintOutcome(b.next, later, amount, s.admin, secondOffset, location, projectType, secondVerifier);
    assert m2.result == Ok(true);
    assert m2.next.creditMetadata == b.next.creditMetadata[m.next.totalSupply :=
      CreditMetadata(secondOffset, later.height, location, projectType, secondVerifier, true)];
  }

  /** Registering an issuer and deregistering it again restores both the
      registry and the count. */
  lemma AddThenRemoveIssuerRestores(s: LedgerState, env: Env, issuer: Principal)
    requires Inv(s)
    requires AddIssuer(s, env, issuer).result.Ok?
    ensures var s1 := AddIssuer(s, env, issuer).next;
      var r := RemoveIssuer(s1, env, issuer);
      && r.result == Ok(true)
      && r.next.issuers == s.issuers
      && r.next.issuerCount == s.issuerCount
      && r.next == s
  {
    AddIssuerKeepsInv(s, env, issuer);
    var s1 := AddIssuer(s, env, issuer).next;
    assert s1.issuers - {issuer} == s.issuers;
  }
}
