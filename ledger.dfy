/** The ledger as a value: its whole state, and one step function per
    operation. Each step runs the operation's checks in their fixed order;
    when one fails it reports that check's error and returns the state
    untouched, otherwise it applies every update of the operation. */
module Ledger {

  import opened TokenTypes
  import opened Balances

  /** Everything the engine owns. `feeTransfers` is the log of value
      transfers handed to the host; `maxSupply` is the supply cap. */
  datatype LedgerState = LedgerState(
    totalSupply: nat,
    mintPaused: bool,
    burnPaused: bool,
    admin: Principal,
    issuanceFee: nat,
    maxIssuers: nat,
    issuerCount: nat,
    gracePeriod: int,
    tokenUri: string,
    balances: map<Principal, nat>,
    allowances: map<(Principal, Principal), nat>,
    issuers: set<Principal>,
    creditMetadata: map<nat, CreditMetadata>,
    creditRetirements: map<nat, CreditRetirement>,
    feeTransfers: seq<FeeTransfer>,
    maxSupply: nat)

  /** What the host supplies with every call. */
  datatype Env = Env(caller: Principal, height: nat)

  /** The state after an operation and what the operation returned. */
  datatype Step = Step(next: LedgerState, result: Result)

  /** The state the engine starts from (and returns to on reset). */
  function Initial(maxSupply: nat): (s: LedgerState)
    ensures Inv(s)
    ensures s.totalSupply == 0 && s.balances == map[] && s.allowances == map[]
    ensures s.issuers == {} && s.creditMetadata == map[] && s.creditRetirements == map[]
    ensures s.feeTransfers == [] && s.maxSupply == maxSupply
  {
    LedgerState(
      totalSupply := 0,
      mintPaused := false,
      burnPaused := false,
      admin := DefaultAdmin,
      issuanceFee := DefaultIssuanceFee,
      maxIssuers := DefaultMaxIssuers,
      issuerCount := 0,
      gracePeriod := DefaultGracePeriod,
      tokenUri := DefaultTokenUri,
      balances := map[],
      allowances := map[],
      issuers := {},
      creditMetadata := map[],
      creditRetirements := map[],
      feeTransfers := [],
      maxSupply := maxSupply)
  }

  // ---------------------------------------------------------------------
  // Invariants

  /** The balances add up to the total supply. */
  ghost predicate SupplyConserved(s: LedgerState)
  {
    Sum(s.balances) == s.totalSupply
  }

  /** The issuer count is the number of issuers, within the cap, and the
      null principal is never an issuer. */
  ghost predicate IssuersConsistent(s: LedgerState)
  {
    && s.issuerCount == |s.issuers|
    && s.issuerCount <= s.maxIssuers
    && NullPrincipal !in s.issuers
  }

  /** What the checks of mint guarantee of every record it writes. */
  ghost predicate MetadataValid(m: CreditMetadata)
  {
    && m.offsetAmount > 0
    && 0 < Utf16Length(m.location) <= MaxLocationLength
    && m.status
  }

  /** Credit records sit at identifiers a supply value could take, and
      carry what their checks demanded. */
  ghost predicate RecordsValid(s: LedgerState)
  {
    && (forall id :: id in s.creditMetadata ==>
          0 < id <= s.maxSupply && MetadataValid(s.creditMetadata[id]))
    && (forall id :: id in s.creditRetirements ==>
          id < s.maxSupply && |s.creditRetirements[id].reason| > 0)
  }

  /** Every scheduled fee is a positive payment from the admin to itself. */
  ghost predicate FeeLogValid(s: LedgerState)
  {
    forall i :: 0 <= i < |s.feeTransfers| ==>
      && s.feeTransfers[i].amount > 0
      && s.feeTransfers[i].from == s.admin
      && s.feeTransfers[i].to == s.admin
  }

  /** The invariant of every reachable state. */
  ghost predicate Inv(s: LedgerState)
  {
    && SupplyConserved(s)
    && s.totalSupply <= s.maxSupply
    && Get(s.balances, NullPrincipal) == 0
    && IssuersConsistent(s)
    && s.issuanceFee > 0
    && s.gracePeriod <= MaxGracePeriod
    && RecordsValid(s)
    && FeeLogValid(s)
  }

  // ---------------------------------------------------------------------
  // Token movements

  function TransferChecks(s: LedgerState, env: Env, amount: int, sender: Principal, recipient: Principal): seq<Check>
  {
    [ Check(env.caller == sender, NotAuthorized),
      Check(amount > 0, InvalidAmount),
      Check(recipient != NullPrincipal, InvalidRecipient),
      Check(amount <= Get(s.balances, sender), InsufficientBalance) ]
  }

  /** The caller moves `amount` of its own tokens to `recipient`. */
  function Transfer(s: LedgerState, env: Env, amount: int, sender: Principal, recipient: Principal): (r: Step)
    ensures SupplyConserved(s) ==> SupplyConserved(r.next)
    ensures r.result.Err? ==> r.next == s
    ensures r.result.Ok? ==>
      && amount > 0
      && r.next == s.(balances := r.next.balances)
      && Sum(r.next.balances) == Sum(s.balances)
      && (sender != recipient ==>
            && Get(r.next.balances, sender) == Get(s.balances, sender) - amount
            && Get(r.next.balances, recipient) == Get(s.balances, recipient) + amount)
      && (sender == recipient ==> Get(r.next.balances, sender) == Get(s.balances, sender))
      && (forall p :: p != sender && p != recipient ==> Get(r.next.balances, p) == Get(s.balances, p))
  {
    var checks := TransferChecks(s, env, amount, sender, recipient);
    var failure := FirstFailure(checks);
    if failure.Some? then Step(s, Verdict(failure))
    else
      assert checks[1].holds && checks[3].holds;
      Step(s.(balances := Move(s.balances, sender, recipient, amount as nat)), Ok(true))
  }

  function ApproveChecks(amount: int): seq<Check>
  {
    [ Check(amount > 0, InvalidAmount) ]
  }

  /** The caller allows `spender` to move `amount` of its tokens; the
      allowance is replaced, not increased. */
  function Approve(s: LedgerState, env: Env, spender: Principal, amount: int): (r: Step)
    ensures r.result.Err? ==> r.next == s
    ensures r.result.Ok? ==>
      && amount > 0
      && r.next == s.(allowances := r.next.allowances)
      && Get(r.next.allowances, (env.caller, spender)) == amount
      && (forall k :: k != (env.caller, spender) ==> Get(r.next.allowances, k) == Get(s.allowances, k))
  {
    var failure := FirstFailure(ApproveChecks(amount));
    if failure.Some? then Step(s, Verdict(failure))
    else Step(s.(allowances := s.allowances[(env.caller, spender) := amount as nat]), Ok(true))
  }

  function TransferFromChecks(s: LedgerState, env: Env, owner: Principal, recipient: Principal, amount: int): seq<Check>
  {
    [ Check(amount > 0, InvalidAmount),
      Check(recipient != NullPrincipal, InvalidRecipient),
      Check(amount <= Get(s.allowances, (owner, env.caller)), NotAuthorized),
      Check(amount <= Get(s.balances, owner), InsufficientBalance) ]
  }

  /** The caller spends `amount` of the allowance `owner` gave it. */
  function TransferFrom(s: LedgerState, env: Env, owner: Principal, recipient: Principal, amount: int): (r: Step)
    ensures SupplyConserved(s) ==> SupplyConserved(r.next)
    ensures r.result.Err? ==> r.next == s
    ensures r.result.Ok? ==>
      && 0 < amount <= Get(s.allowances, (owner, env.caller))
      && r.next == s.(balances := r.next.balances, allowances := r.next.allowances)
      && Sum(r.next.balances) == Sum(s.balances)
      && (owner != recipient ==>
            && Get(r.next.balances, owner) == Get(s.balances, owner) - amount
            && Get(r.next.balances, recipient) == Get(s.balances, recipient) + amount)
      && (owner == recipient ==> Get(r.next.balances, owner) == Get(s.balances, owner))
      && (forall p :: p != owner && p != recipient ==> Get(r.next.balances, p) == Get(s.balances, p))
      && Get(r.next.allowances, (owner, env.caller)) == Get(s.allowances, (owner, env.caller)) - amount
      && (forall k :: k != (owner, env.caller) ==> Get(r.next.allowances, k) == Get(s.allowances, k))
  {
    var checks := TransferFromChecks(s, env, owner, recipient, amount);
    var failure := FirstFailure(checks);
    if failure.Some? then Step(s, Verdict(failure))
    else
      assert checks[0].holds && checks[2].holds && checks[3].holds;
      var allowance := Get(s.allowances, (owner, env.caller));
      Step(s.(balances := Move(s.balances, owner, recipient, amount as nat),
              allowances := s.allowances[(owner, env.caller) := allowance - amount as nat]),
           Ok(true))
  }

  // ---------------------------------------------------------------------
  // Issuance and retirement

  function MintChecks(s: LedgerState, env: Env, amount: int, recipient: Principal,
                      offsetAmount: int, location: string, projectType: string): seq<Check>
  {
    [ Check(env.caller == s.admin, NotAuthorized),
      Check(!s.mintPaused, MintPaused),
      Check(amount > 0, InvalidAmount),
      Check(recipient != NullPrincipal, InvalidRecipient),
      Check(offsetAmount > 0 && Utf16Length(location) != 0 && |projectType| != 0, InvalidMetadata),
      Check(projectType in ProjectTypes, InvalidProjectType),
      Check(Utf16Length(location) != 0 && Utf16Length(location) <= MaxLocationLength, InvalidLocation),
      Check(s.totalSupply + amount <= s.maxSupply, MaxSupplyExceeded) ]
  }

  /** The admin issues `amount` new tokens to `recipient`, records the
      credit under the new total supply, and schedules the issuance fee
      from the caller to the admin. The location's length is counted in
      UTF-16 code units, as JavaScript's `length` counts it. */
  function Mint(s: LedgerState, env: Env, amount: int, recipient: Principal, offsetAmount: int,
                location: string, projectType: string, verifier: Principal): (r: Step)
    ensures SupplyConserved(s) ==> SupplyConserved(r.next)
    ensures r.result.Err? ==> r.next == s
    ensures r.result.Ok? ==>
      && amount > 0 && offsetAmount > 0
      && var id := s.totalSupply + amount;
      && r.next == s.(balances := r.next.balances,
                      totalSupply := id,
                      creditMetadata := s.creditMetadata[id := CreditMetadata(offsetAmount, env.height, location,
                                                                              projectType, verifier, true)],
                      feeTransfers := s.feeTransfers + [FeeTransfer(s.issuanceFee, env.caller, s.admin)])
      && Sum(r.next.balances) == Sum(s.balances) + amount
      && Get(r.next.balances, recipient) == Get(s.balances, recipient) + amount
      && (forall p :: p != recipient ==> Get(r.next.balances, p) == Get(s.balances, p))
  {
    var checks := MintChecks(s, env, amount, recipient, offsetAmount, location, projectType);
    var failure := FirstFailure(checks);
    if failure.Some? then Step(s, Verdict(failure))
    else
      assert checks[2].holds && checks[4].holds;
      var supply := s.totalSupply + amount as nat;
      var record := CreditMetadata(offsetAmount as nat, env.height, location, projectType, verifier, true);
      Step(s.(balances := Credit(s.balances, recipient, amount as nat),
              totalSupply := supply,
              creditMetadata := s.creditMetadata[supply := record],
              feeTransfers := s.feeTransfers + [FeeTransfer(s.issuanceFee, env.caller, s.admin)]),
           Ok(true))
  }

  function BurnChecks(s: LedgerState, env: Env, amount: int, reason: string): seq<Check>
  {
    [ Check(!s.burnPaused, BurnPaused),
      Check(amount > 0, InvalidAmount),
      Check(|reason| != 0, InvalidRetirementReason),
      Check(amount <= Get(s.balances, env.caller), InsufficientBalance) ]
  }

  /** The caller retires `amount` of its own tokens, recording why under
      the total supply left afterwards. The supply can only be lowered
      when the balances add up to it, which holds in every reachable state. */
  function Burn(s: LedgerState, env: Env, amount: int, reason: string): (r: Step)
    requires SupplyConserved(s)
    ensures SupplyConserved(r.next)
    ensures r.result.Err? ==> r.next == s
    ensures r.result.Ok? ==>
      && 0 < amount <= s.totalSupply
      && var id := s.totalSupply - amount;
      && r.next == s.(balances := r.next.balances,
                      totalSupply := id,
                      creditRetirements := s.creditRetirements[id := CreditRetirement(reason, env.height, env.caller)])
      && Sum(r.next.balances) == Sum(s.balances) - amount
      && Get(r.next.balances, env.caller) == Get(s.balances, env.caller) - amount
      && (forall p :: p != env.caller ==> Get(r.next.balances, p) == Get(s.balances, p))
  {
    var checks := BurnChecks(s, env, amount, reason);
    var failure := FirstFailure(checks);
    if failure.Some? then Step(s, Verdict(failure))
    else
      assert checks[1].holds && checks[3].holds;
      SumBound(s.balances, env.caller);
      var supply := s.totalSupply - amount as nat;
      Step(s.(balances := Debit(s.balances, env.caller, amount as nat),
              totalSupply := supply,
              creditRetirements := s.creditRetirements[supply := CreditRetirement(reason, env.height, env.caller)]),
           Ok(true))
  }

  // ---------------------------------------------------------------------
  // Issuer registry

  function AdminCheck(s: LedgerState, env: Env): Check
  {
    Check(env.caller == s.admin, NotAuthorized)
  }

  function AddIssuerChecks(s: LedgerState, env: Env, issuer: Principal): seq<Check>
  {
    [ AdminCheck(s, env),
      Check(issuer != NullPrincipal, InvalidRecipient),
      Check(issuer !in s.issuers, AlreadyIssued),
      Check(s.issuerCount < s.maxIssuers, MaxIssuersExceeded) ]
  }

  /** The admin registers a new issuer. */
  function AddIssuer(s: LedgerState, env: Env, issuer: Principal): (r: Step)
    ensures IssuersConsistent(s) ==> IssuersConsistent(r.next)
    ensures r.result.Err? ==> r.next == s
    ensures r.result.Ok? ==>
      && issuer !in s.issuers && s.issuerCount < s.maxIssuers
      && r.next == s.(issuers := s.issuers + {issuer}, issuerCount := s.issuerCount + 1)
  {
    var checks := AddIssuerChecks(s, env, issuer);
    var failure := FirstFailure(checks);
    if failure.Some? then Step(s, Verdict(failure))
    else
      assert checks[1].holds && checks[2].holds && checks[3].holds;
      Step(s.(issuers := s.issuers + {issuer}, issuerCount := s.issuerCount + 1), Ok(true))
  }

  function RemoveIssuerChecks(s: LedgerState, env: Env, issuer: Principal): seq<Check>
  {
    [ AdminCheck(s, env),
      Check(issuer in s.issuers, InvalidIssuer) ]
  }

  /** The admin deregisters an issuer. The count can only be lowered when
      it matches the registry, which holds in every reachable state. */
  function RemoveIssuer(s: LedgerState, env: Env, issuer: Principal): (r: Step)
    requires s.issuerCount == |s.issuers|
    ensures IssuersConsistent(s) ==> IssuersConsistent(r.next)
    ensures r.result.Err? ==> r.next == s
    ensures r.result.Ok? ==>
      && issuer in s.issuers && s.issuerCount > 0
      && r.next == s.(issuers := s.issuers - {issuer}, issuerCount := s.issuerCount - 1)
  {
    var checks := RemoveIssuerChecks(s, env, issuer);
    var failure := FirstFailure(checks);
    if failure.Some? then Step(s, Verdict(failure))
    else
      assert checks[1].holds;
      assert |s.issuers - {issuer}| == |s.issuers| - 1;
      Step(s.(issuers := s.issuers - {issuer}, issuerCount := s.issuerCount - 1), Ok(true))
  }

  // ---------------------------------------------------------------------
  // Admin parameters

  function SetIssuanceFeeChecks(s: LedgerState, env: Env, fee: int): seq<Check>
  {
    [ AdminCheck(s, env), Check(fee > 0, InvalidFee) ]
  }

  function SetIssuanceFee(s: LedgerState, env: Env, fee: int): (r: Step)
    ensures r.result.Err? ==> r.next == s
    ensures r.result.Ok? ==> fee > 0 && r.next == s.(issuanceFee := fee)
  {
    var checks := SetIssuanceFeeChecks(s, env, fee);
    var failure := FirstFailure(checks);
    if failure.Some? then Step(s, Verdict(failure))
    else
      assert checks[1].holds;
      Step(s.(issuanceFee := fee as nat), Ok(true))
  }

  function PauseMint(s: LedgerState, env: Env): (r: Step)
    ensures r.result.Err? ==> r.next == s
    ensures r.result.Ok? ==> r.next == s.(mintPaused := true)
  {
    var failure := FirstFailure([AdminCheck(s, env)]);
    if failure.Some? then Step(s, Verdict(failure))
    else Step(s.(mintPaused := true), Ok(true))
  }

  function UnpauseMint(s: LedgerState, env: Env): (r: Step)
    ensures r.result.Err? ==> r.next == s
    ensures r.result.Ok? ==> r.next == s.(mintPaused := false)
  {
    var failure := FirstFailure([AdminCheck(s, env)]);
    if failure.Some? then Step(s, Verdict(failure))
    else Step(s.(mintPaused := false), Ok(true))
  }

  function PauseBurn(s: LedgerState, env: Env): (r: Step)
    ensures r.result.Err? ==> r.next == s
    ensures r.result.Ok? ==> r.next == s.(burnPaused := true)
  {
    var failure := FirstFailure([AdminCheck(s, env)]);
    if failure.Some? then Step(s, Verdict(failure))
    else Step(s.(burnPaused := true), Ok(true))
  }

  function UnpauseBurn(s: LedgerState, env: Env): (r: Step)
    ensures r.result.Err? ==> r.next == s
    ensures r.result.Ok? ==> r.next == s.(burnPaused := false)
  {
    var failure := FirstFailure([AdminCheck(s, env)]);
    if failure.Some? then Step(s, Verdict(failure))
    else Step(s.(burnPaused := false), Ok(true))
  }

  function SetTokenUri(s: LedgerState, env: Env, uri: string): (r: Step)
    ensures r.result.Err? ==> r.next == s
    ensures r.result.Ok? ==> r.next == s.(tokenUri := uri)
  {
    var failure := FirstFailure([AdminCheck(s, env)]);
    if failure.Some? then Step(s, Verdict(failure))
    else Step(s.(tokenUri := uri), Ok(true))
  }

  function SetGracePeriodChecks(s: LedgerState, env: Env, period: int): seq<Check>
  {
    [ AdminCheck(s, env), Check(period <= MaxGracePeriod, InvalidGracePeriod) ]
  }

  function SetGracePeriod(s: LedgerState, env: Env, period: int): (r: Step)
    ensures r.result.Err? ==> r.next == s
    ensures r.result.Ok? ==> period <= MaxGracePeriod && r.next == s.(gracePeriod := period)
  {
    var checks := SetGracePeriodChecks(s, env, period);
    var failure := FirstFailure(checks);
    if failure.Some? then Step(s, Verdict(failure))
    else
      assert checks[1].holds;
      Step(s.(gracePeriod := period), Ok(true))
  }
}
