/** The engine as an object whose operations update its fields in place.
    Each method performs the checks of its operation in order, returns the
    first failure without touching anything, and otherwise updates the
    maps and counters. Each is proved to do exactly what the matching step
    function of `Ledger` does, and to keep the ledger invariant. */
module Token {

  import opened TokenTypes
  import opened Balances
  import Ledger
  import LedgerProperties

  class CarbonCreditToken {
    /** The ledger record every operation reads and updates. */
    var state: Ledger.LedgerState

    /** Set by the host before each call. */
    var blockHeight: nat
    var caller: Principal

    /** What the host has supplied for the current call. */
    function Host(): Ledger.Env
      reads this
    {
      Ledger.Env(caller, blockHeight)
    }

    ghost predicate Valid()
      reads this
    {
      Ledger.Inv(state)
    }

    constructor ()
      ensures Valid()
      ensures state == Ledger.Initial(DefaultMaxSupply)
      ensures GetTokenUri() == DefaultTokenUri && GetTotalSupply() == 0
      ensures caller == DefaultAdmin && blockHeight == 0
    {
      state := Ledger.Initial(DefaultMaxSupply);
      blockHeight, caller := 0, DefaultAdmin;
    }

    /** Back to the initial state; the supply cap is kept. */
    method Reset()
      modifies this
      ensures state == Ledger.Initial(old(state.maxSupply))
      ensures GetTokenUri() == DefaultTokenUri && GetTotalSupply() == 0
      ensures Valid()
      ensures caller == DefaultAdmin && blockHeight == 0
    {
      state := Ledger.Initial(state.maxSupply);
      blockHeight, caller := 0, DefaultAdmin;
    }

    // -------------------------------------------------------------------
    // Read accessors

    /** An account's balance, zero if it never held tokens; no balance
        exceeds the supply, and the null principal holds nothing. */
    function GetBalance(account: Principal): (r: nat)
      reads this
      ensures account in state.balances ==> r == state.balances[account]
      ensures account !in state.balances ==> r == 0
      ensures Valid() ==> r <= state.totalSupply
      ensures Valid() && account == NullPrincipal ==> r == 0
    {
      SumBound(state.balances, account);
      Get(state.balances, account)
    }

    /** The supply: what all balances add up to, within the cap. */
    function GetTotalSupply(): (r: nat)
      reads this
      ensures Valid() ==> r == Sum(state.balances) && r <= state.maxSupply
    {
      state.totalSupply
    }

    /** The token's name, symbol and number of decimals never change. */
    function GetName(): (r: string)
      ensures r == TokenName
    {
      TokenName
    }

    function GetSymbol(): (r: string)
      ensures r == TokenSymbol
    {
      TokenSymbol
    }

    function GetDecimals(): (r: nat)
      ensures r == TokenDecimals
    {
      TokenDecimals
    }

    /** The metadata URI: the default after reset, then whatever the admin
        last set. */
    function GetTokenUri(): (r: string)
      reads this
      ensures r == state.tokenUri
    {
      state.tokenUri
    }

    /** What `owner` lets `spender` move, zero if never approved. */
    function GetAllowance(owner: Principal, spender: Principal): (r: nat)
      reads this
      ensures (owner, spender) !in state.allowances ==> r == 0
      ensures (owner, spender) in state.allowances ==> r == state.allowances[(owner, spender)]
    {
      Get(state.allowances, (owner, spender))
    }

    /** The record a mint left under `creditId`, if any; every record
        carries a positive offset, a location of 1 to 100 UTF-16 code
        units and an active status. */
    function GetCreditMetadata(creditId: nat): (r: Option<CreditMetadata>)
      reads this
      ensures r.Some? <==> creditId in state.creditMetadata
      ensures r.Some? ==> r.value == state.creditMetadata[creditId]
      ensures Valid() && r.Some? ==> 0 < creditId <= state.maxSupply && Ledger.MetadataValid(r.value)
    {
      if creditId in state.creditMetadata then Some(state.creditMetadata[creditId]) else None
    }

    /** The record a burn left under `creditId`, if any; every record
        carries a non-empty reason. */
    function GetCreditRetirement(creditId: nat): (r: Option<CreditRetirement>)
      reads this
      ensures r.Some? <==> creditId in state.creditRetirements
      ensures r.Some? ==> r.value == state.creditRetirements[creditId]
      ensures Valid() && r.Some? ==> creditId < state.maxSupply && |r.value.reason| > 0
    {
      if creditId in state.creditRetirements then Some(state.creditRetirements[creditId]) else None
    }

    /** Whether `account` is a registered issuer; the null principal never is. */
    function IsIssuer(account: Principal): (r: bool)
      reads this
      ensures r <==> account in state.issuers
      ensures Valid() && r ==> account != NullPrincipal && state.issuerCount >= 1
    {
      account in state.issuers
    }

    // -------------------------------------------------------------------
    // Token movements

    method Transfer(amount: int, sender: Principal, recipient: Principal) returns (r: Result)
      requires Valid()
      modifies this`state
      ensures Valid()
      ensures Ledger.Step(state, r) == Ledger.Transfer(old(state), Host(), amount, sender, recipient)
    {
      ghost var s := state;
      LedgerProperties.TransferEarlyReturns(s, Host(), amount, sender, recipient);
      if caller != sender { return Err(NotAuthorized); }
      if amount <= 0 { return Err(InvalidAmount); }
      if recipient == NullPrincipal { return Err(InvalidRecipient); }
      if GetBalance(sender) < amount { return Err(InsufficientBalance); }
      state := state.(balances := state.balances[sender := GetBalance(sender) - amount]);
      assert state.balances == Debit(s.balances, sender, amount);
      state := state.(balances := state.balances[recipient := GetBalance(recipient) + amount]);
      assert state.balances == Move(s.balances, sender, recipient, amount);
      r := Ok(true);
    }

    method Approve(spender: Principal, amount: int) returns (r: Result)
      requires Valid()
      modifies this`state
      ensures Valid()
      ensures Ledger.Step(state, r) == Ledger.Approve(old(state), Host(), spender, amount)
    {
      LedgerProperties.ApproveKeepsInv(state, Host(), spender, amount);
      if amount <= 0 { return Err(InvalidAmount); }
      state := state.(allowances := state.allowances[(caller, spender) := amount]);
      r := Ok(true);
    }

    method TransferFrom(owner: Principal, recipient: Principal, amount: int) returns (r: Result)
      requires Valid()
      modifies this`state
      ensures Valid()
      ensures Ledger.Step(state, r) == Ledger.TransferFrom(old(state), Host(), owner, recipient, amount)
    {
      ghost var s := state;
      LedgerProperties.TransferFromEarlyReturns(s, Host(), owner, recipient, amount);
      var allowance := GetAllowance(owner, caller);
      if amount <= 0 { return Err(InvalidAmount); }
      if recipient == NullPrincipal { return Err(InvalidRecipient); }
      if allowance < amount { return Err(NotAuthorized); }
      if GetBalance(owner) < amount { return Err(InsufficientBalance); }
      state := state.(balances := state.balances[owner := GetBalance(owner) - amount]);
      assert state.balances == Debit(s.balances, owner, amount);
      state := state.(balances := state.balances[recipient := GetBalance(recipient) + amount]);
      assert state.balances == Move(s.balances, owner, recipient, amount);
      state := state.(allowances := state.allowances[(owner, caller) := allowance - amount]);
      r := Ok(true);
    }

    // -------------------------------------------------------------------
    // Issuance and retirement

    method Mint(amount: int, recipient: Principal, offsetAmount: int, location: string,
                projectType: string, verifier: Principal) returns (r: Result)
      requires Valid()
      modifies this`state
      ensures Valid()
      ensures Ledger.Step(state, r) ==
              Ledger.Mint(old(state), Host(), amount, recipient, offsetAmount, location, projectType, verifier)
    {
      ghost var s := state;
      LedgerProperties.MintEarlyReturns(s, Host(), amount, recipient, offsetAmount, location, projectType, verifier);
      if caller != state.admin { return Err(NotAuthorized); }
      if state.mintPaused { return Err(MintPaused); }
      if amount <= 0 { return Err(InvalidAmount); }
      if recipient == NullPrincipal { return Err(InvalidRecipient); }
      if offsetAmount <= 0 || Utf16Length(location) == 0 || |projectType| == 0 { return Err(InvalidMetadata); }
      if projectType !in ProjectTypes { return Err(InvalidProjectType); }
      if Utf16Length(location) == 0 || Utf16Length(location) > MaxLocationLength { return Err(InvalidLocation); }
      if state.totalSupply + amount > state.maxSupply { return Err(MaxSupplyExceeded); }
      state := state.(balances := state.balances[recipient := GetBalance(recipient) + amount]);
      state := state.(totalSupply := state.totalSupply + amount);
      var creditId := state.totalSupply;
      state := state.(creditMetadata := state.creditMetadata[creditId :=
        CreditMetadata(offsetAmount, blockHeight, location, projectType, verifier, true)]);
      state := state.(feeTransfers := state.feeTransfers + [FeeTransfer(state.issuanceFee, caller, state.admin)]);
      assert state == s.(balances := s.balances[recipient := Get(s.balances, recipient) + amount],
                         totalSupply := creditId,
                         creditMetadata := s.creditMetadata[creditId := CreditMetadata(offsetAmount, blockHeight, location,
                                                                                        projectType, verifier, true)],
                         feeTransfers := s.feeTransfers + [FeeTransfer(s.issuanceFee, caller, s.admin)]);
      r := Ok(true);
    }

    method Burn(amount: int, reason: string) returns (r: Result)
      requires Valid()
      modifies this`state
      ensures Valid()
      ensures Ledger.Step(state, r) == Ledger.Burn(old(state), Host(), amount, reason)
    {
      ghost var s := state;
      LedgerProperties.BurnEarlyReturns(s, Host(), amount, reason);
      if state.burnPaused { return Err(BurnPaused); }
      if amount <= 0 { return Err(InvalidAmount); }
      if |reason| == 0 { return Err(InvalidRetirementReason); }
      if GetBalance(caller) < amount { return Err(InsufficientBalance); }
      state := state.(balances := state.balances[caller := GetBalance(caller) - amount]);
      assert state.balances == Debit(s.balances, caller, amount);
      state := state.(totalSupply := state.totalSupply - amount);
      var creditId := state.totalSupply;
      state := state.(creditRetirements := state.creditRetirements[creditId :=
        CreditRetirement(reason, blockHeight, caller)]);
      r := Ok(true);
    }

    // -------------------------------------------------------------------
    // Issuer registry

    method AddIssuer(newIssuer: Principal) returns (r: Result)
      requires Valid()
      modifies this`state
      ensures Valid()
      ensures Ledger.Step(state, r) == Ledger.AddIssuer(old(state), Host(), newIssuer)
    {
      LedgerProperties.AddIssuerEarlyReturns(state, Host(), newIssuer);
      if caller != state.admin { return Err(NotAuthorized); }
      if newIssuer == NullPrincipal { return Err(InvalidRecipient); }
      if IsIssuer(newIssuer) { return Err(AlreadyIssued); }
      if state.issuerCount >= state.maxIssuers { return Err(MaxIssuersExceeded); }
      state := state.(issuers := state.issuers + {newIssuer});
      state := state.(issuerCount := state.issuerCount + 1);
      r := Ok(true);
    }

    method RemoveIssuer(issuer: Principal) returns (r: Result)
      requires Valid()
      modifies this`state
      ensures Valid()
      ensures Ledger.Step(state, r) == Ledger.RemoveIssuer(old(state), Host(), issuer)
    {
      LedgerProperties.RemoveIssuerEarlyReturns(state, Host(), issuer);
      if caller != state.admin { return Err(NotAuthorized); }
      if !IsIssuer(issuer) { return Err(InvalidIssuer); }
      state := state.(issuers := state.issuers - {issuer});
      state := state.(issuerCount := state.issuerCount - 1);
      r := Ok(true);
    }

    // -------------------------------------------------------------------
    // Admin parameters

    method SetIssuanceFee(newFee: int) returns (r: Result)
      requires Valid()
      modifies this`state
      ensures Valid()
      ensures Ledger.Step(state, r) == Ledger.SetIssuanceFee(old(state), Host(), newFee)
    {
      LedgerProperties.SetIssuanceFeeOutcome(state, Host(), newFee);
      if caller != state.admin { return Err(NotAuthorized); }
      if newFee <= 0 { return Err(InvalidFee); }
      state := state.(issuanceFee := newFee);
      r := Ok(true);
    }

    method PauseMint() returns (r: Result)
      requires Valid()
      modifies this`state
      ensures Valid()
      ensures Ledger.Step(state, r) == Ledger.PauseMint(old(state), Host())
    {
      if caller != state.admin { return Err(NotAuthorized); }
      state := state.(mintPaused := true);
      r := Ok(true);
    }

    method UnpauseMint() returns (r: Result)
      requires Valid()
      modifies this`state
      ensures Valid()
      ensures Ledger.Step(state, r) == Ledger.UnpauseMint(old(state), Host())
    {
      if caller != state.admin { return Err(NotAuthorized); }
      state := state.(mintPaused := false);
      r := Ok(true);
    }

    method PauseBurn() returns (r: Result)
      requires Valid()
      modifies this`state
      ensures Valid()
      ensures Ledger.Step(state, r) == Ledger.PauseBurn(old(state), Host())
    {
      if caller != state.admin { return Err(NotAuthorized); }
      state := state.(burnPaused := true);
      r := Ok(true);
    }

    method UnpauseBurn() returns (r: Result)
      requires Valid()
      modifies this`state
      ensures Valid()
      ensures Ledger.Step(state, r) == Ledger.UnpauseBurn(old(state), Host())
    {
      if caller != state.admin { return Err(NotAuthorized); }
      state := state.(burnPaused := false);
      r := Ok(true);
    }

    method SetTokenUri(newUri: string) returns (r: Result)
      requires Valid()
      modifies this`state
      ensures Valid()
      ensures Ledger.Step(state, r) == Ledger.SetTokenUri(old(state), Host(), newUri)
    {
      if caller != state.admin { return Err(NotAuthorized); }
      state := state.(tokenUri := newUri);
      r := Ok(true);
    }

    method SetGracePeriod(newPeriod: int) returns (r: Result)
      requires Valid()
      modifies this`state
      ensures Valid()
      ensures Ledger.Step(state, r) == Ledger.SetGracePeriod(old(state), Host(), newPeriod)
    {
      LedgerProperties.SetGracePeriodOutcome(state, Host(), newPeriod);
      if caller != state.admin { return Err(NotAuthorized); }
      if newPeriod > MaxGracePeriod { return Err(InvalidGracePeriod); }
      state := state.(gracePeriod := newPeriod);
      r := Ok(true);
    }
  }
}
