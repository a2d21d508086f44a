/** Vocabulary shared by the ledger: principals, the fixed token constants,
    the numeric error codes, the result of an operation, the records kept per
    credit, and the "first failing check" rule every operation follows. */
module TokenTypes {

  /** An account identity (caller, owner, spender, recipient, issuer, admin). */
  type Principal = string

  /** The reserved burn address; transfers, mints and issuer additions
      that target it are refused. */
  const NullPrincipal: Principal := "SP000000000000000000002Q6VF78"

  const DefaultAdmin: Principal := "ST1ADMIN"
  const TokenName: string := "Carbon Credit"
  const TokenSymbol: string := "CCREDIT"
  const TokenDecimals: nat := 6
  const DefaultIssuanceFee: nat := 1000
  const DefaultMaxIssuers: nat := 100
  const DefaultGracePeriod: int := 144
  const MaxGracePeriod: int := 1440
  const MaxLocationLength: nat := 100
  const DefaultMaxSupply: nat := 1000000000
  const DefaultTokenUri: string := "https://example.com/carbon-credit-metadata.json"

  /** The closed list of project types a minted credit may carry. */
  const ProjectTypes: seq<string> := ["forest", "renewable", "soil"]

  /** How many UTF-16 code units `c` occupies: one inside the Basic
      Multilingual Plane, two (a surrogate pair) above it. */
  function CodeUnits(c: char): (n: nat)
    ensures n == 1 <==> (c as int) < 0x10000
    ensures 1 <= n <= 2
  {
    if (c as int) < 0x10000 then 1 else 2
  }

  /** The UTF-16 code units of `s[k..]`, counted position by position. */
  function Utf16LengthFrom(s: string, k: nat): (n: nat)
    requires k <= |s|
    ensures |s| - k <= n <= 2 * (|s| - k)
    decreases |s| - k
  {
    if k == |s| then 0 else CodeUnits(s[k]) + Utf16LengthFrom(s, k + 1)
  }

  /** The `length` the engine sees for a string: its UTF-16 code units,
      which is more than its number of characters once a character lies
      above the Basic Multilingual Plane. */
  function Utf16Length(s: string): (n: nat)
    ensures |s| <= n <= 2 * |s|
    ensures n == 0 <==> |s| == 0
  {
    Utf16LengthFrom(s, 0)
  }

  /** Inside the Basic Multilingual Plane the two counts agree. */
  lemma Utf16LengthOfBmp(s: string)
    requires forall i :: 0 <= i < |s| ==> (s[i] as int) < 0x10000
    ensures Utf16Length(s) == |s|
  {
    BmpSuffix(s, 0);
  }

  lemma {:induction false} BmpSuffix(s: string, k: nat)
    requires k <= |s|
    requires forall i :: 0 <= i < |s| ==> (s[i] as int) < 0x10000
    ensures Utf16LengthFrom(s, k) == |s| - k
    decreases |s| - k
  {
    if k < |s| {
      BmpSuffix(s, k + 1);
    }
  }

  /** A string made only of characters above the Basic Multilingual Plane
      has twice as many code units as characters. */
  lemma Utf16LengthOfAstral(s: string)
    requires forall i :: 0 <= i < |s| ==> (s[i] as int) >= 0x10000
    ensures Utf16Length(s) == 2 * |s|
  {
    AstralSuffix(s, 0);
  }

  lemma {:induction false} AstralSuffix(s: string, k: nat)
    requires k <= |s|
    requires forall i :: 0 <= i < |s| ==> (s[i] as int) >= 0x10000
    ensures Utf16LengthFrom(s, k) == 2 * (|s| - k)
    decreases |s| - k
  {
    if k < |s| {
      AstralSuffix(s, k + 1);
    }
  }

  /** Every way an operation can fail. */
  datatype Error =
    | NotAuthorized
    | InvalidAmount
    | InvalidMetadata
    | InsufficientBalance
    | MaxSupplyExceeded
    | MintPaused
    | BurnPaused
    | InvalidRecipient
    | InvalidIssuer
    | AlreadyIssued
    | MaxIssuersExceeded
    | InvalidFee
    | InvalidLocation
    | InvalidProjectType
    | InvalidGracePeriod
    | InvalidRetirementReason
  {
    /** The number callers see for this failure. */
    function Code(): (c: nat)
      ensures 100 <= c <= 124
      ensures c != 102
    {
      match this
      case NotAuthorized => 100
      case InvalidAmount => 101
      case InvalidMetadata => 103
      case InsufficientBalance => 104
      case MaxSupplyExceeded => 105
      case MintPaused => 107
      case BurnPaused => 108
      case InvalidRecipient => 109
      case InvalidIssuer => 110
      case AlreadyIssued => 111
      case InvalidLocation => 114
      case InvalidProjectType => 115
      case MaxIssuersExceeded => 120
      case InvalidFee => 121
      case InvalidGracePeriod => 123
      case InvalidRetirementReason => 124
    }
  }

  /** Distinct failures are reported under distinct codes. */
  lemma CodesDistinct(e1: Error, e2: Error)
    ensures e1.Code() == e2.Code() <==> e1 == e2
  {
  }

  /** What every mutating operation returns: `Ok(true)` or the failure. */
  datatype Result = Ok(value: bool) | Err(error: Error)

  datatype Option<T> = None | Some(value: T)

  /** Recorded at mint time under the credit identifier. */
  datatype CreditMetadata = CreditMetadata(
    offsetAmount: nat,
    timestamp: nat,
    location: string,
    projectType: string,
    verifier: Principal,
    status: bool)

  /** Recorded at burn time under the credit identifier. */
  datatype CreditRetirement = CreditRetirement(
    reason: string,
    timestamp: nat,
    retiree: Principal)

  /** A value transfer the host must carry out together with a mint. */
  datatype FeeTransfer = FeeTransfer(amount: nat, from: Principal, to: Principal)

  /** One validation step of an operation: the condition that must hold,
      and the failure reported when it does not. */
  datatype Check = Check(holds: bool, error: Error)

  /** Check `i` is the first one in `checks` that fails. */
  ghost predicate FailsFirstAt(checks: seq<Check>, i: int)
  {
    && 0 <= i < |checks|
    && !checks[i].holds
    && forall j :: 0 <= j < i ==> checks[j].holds
  }

  /** Runs the checks in order and reports the failure of the first one
      that does not hold; later checks are never consulted. */
  function FirstFailure(checks: seq<Check>): (r: Option<Error>)
    ensures (forall i :: 0 <= i < |checks| ==> checks[i].holds) <==> r == None
    decreases |checks|
  {
    if |checks| == 0 then None
    else if !checks[0].holds then Some(checks[0].error)
    else
      var rest := checks[1..];
      assert forall i :: 0 <= i < |rest| ==> rest[i] == checks[i + 1];
      FirstFailure(rest)
  }

  /** The failure reported is the one of the first check that fails. */
  lemma {:induction false} FirstFailureReportsFirst(checks: seq<Check>, i: int)
    requires FailsFirstAt(checks, i)
    ensures FirstFailure(checks) == Some(checks[i].error)
    decreases i
  {
    if i > 0 {
      assert checks[0].holds;
      var rest := checks[1..];
      assert FailsFirstAt(rest, i - 1) by {
        assert forall j :: 0 <= j < i - 1 ==> rest[j] == checks[j + 1];
      }
      FirstFailureReportsFirst(rest, i - 1);
    }
  }

  /** A failure is only ever reported because some check failed first. */
  lemma {:induction false} FirstFailureHasCause(checks: seq<Check>)
    requires FirstFailure(checks).Some?
    ensures exists i :: FailsFirstAt(checks, i) && FirstFailure(checks) == Some(checks[i].error)
    decreases |checks|
  {
    if checks[0].holds {
      var rest := checks[1..];
      FirstFailureHasCause(rest);
      var j :| FailsFirstAt(rest, j) && FirstFailure(rest) == Some(rest[j].error);
      assert FailsFirstAt(checks, j + 1) by {
        assert forall k :: 0 <= k < |rest| ==> rest[k] == checks[k + 1];
      }
    } else {
      assert FailsFirstAt(checks, 0);
    }
  }

  /** Running the checks from position `k` on: check `k` either fails,
      and is reported, or hands over to the checks after it. */
  lemma FirstFailureFrom(checks: seq<Check>, k: nat)
    requires k <= |checks|
    ensures FirstFailure(checks[k..]) ==
      if k == |checks| then None
      else if checks[k].holds then FirstFailure(checks[k + 1..])
      else Some(checks[k].error)
  {
    if k < |checks| {
      assert checks[k..][1..] == checks[k + 1..];
    }
  }

  /** No two checks of the list report the same failure. */
  ghost predicate DistinctErrors(checks: seq<Check>)
  {
    forall i, j :: 0 <= i < j < |checks| ==> checks[i].error != checks[j].error
  }

  /** When every check reports its own failure, the reported failure
      names exactly the check that failed first. */
  lemma FirstFailureIdentifiesCheck(checks: seq<Check>, i: int)
    requires DistinctErrors(checks)
    requires 0 <= i < |checks|
    ensures FirstFailure(checks) == Some(checks[i].error) <==> FailsFirstAt(checks, i)
  {
    if FirstFailure(checks) == Some(checks[i].error) {
      FirstFailureHasCause(checks);
      var j :| FailsFirstAt(checks, j) && FirstFailure(checks) == Some(checks[j].error);
      assert j == i;
    } else if FailsFirstAt(checks, i) {
      FirstFailureReportsFirst(checks, i);
    }
  }

  /** The result an operation reports once its checks have been run. */
  function Verdict(failure: Option<Error>): (r: Result)
    ensures r.Ok? <==> failure.None?
    ensures r.Ok? ==> r.value
    ensures failure.Some? ==> r == Err(failure.value)
  {
    match failure
    case None => Ok(true)
    case Some(e) => Err(e)
  }
}
