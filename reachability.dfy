/** Any sequence of calls, by any callers at any heights, starting from the
    initial state: the invariant holds in every state reached, so the
    balances always add up to a supply that never passes its cap. */
module Reachability {

  import opened TokenTypes
  import opened Balances
  import opened Ledger
  import opened LedgerProperties

  /** One request to the engine, with its arguments. */
  datatype Op =
    | TransferOp(amount: int, sender: Principal, recipient: Principal)
    | ApproveOp(spender: Principal, amount: int)
    | TransferFromOp(owner: Principal, recipient: Principal, amount: int)
    | MintOp(amount: int, recipient: Principal, offsetAmount: int, location: string,
             projectType: string, verifier: Principal)
    | BurnOp(amount: int, reason: string)
    | AddIssuerOp(issuer: Principal)
    | RemoveIssuerOp(issuer: Principal)
    | SetIssuanceFeeOp(fee: int)
    | PauseMintOp
    | UnpauseMintOp
    | PauseBurnOp
    | UnpauseBurnOp
    | SetTokenUriOp(uri: string)
    | SetGracePeriodOp(period: int)

  /** A request together with what the host supplies for it. */
  datatype Call = Call(env: Env, op: Op)

  /** Performs one request on a reachable state. Whatever the request, a
      failure leaves the state as it was and the invariant survives. */
  function Apply(s: LedgerState, env: Env, op: Op): (r: Step)
    requires Inv(s)
    ensures Inv(r.next)
    ensures r.result.Err? ==> r.next == s
    ensures r.next.admin == s.admin && r.next.maxSupply == s.maxSupply
  {
    match op
    case TransferOp(amount, sender, recipient) =>
      TransferKeepsInv(s, env, amount, sender, recipient);
      Transfer(s, env, amount, sender, recipient)
    case ApproveOp(spender, amount) =>
      ApproveKeepsInv(s, env, spender, amount);
      Approve(s, env, spender, amount)
    case TransferFromOp(owner, recipient, amount) =>
      TransferFromKeepsInv(s, env, owner, recipient, amount);
      TransferFrom(s, env, owner, recipient, amount)
    case MintOp(amount, recipient, offsetAmount, location, projectType, verifier) =>
      MintKeepsInv(s, env, amount, recipient, offsetAmount, location, projectType, verifier);
      Mint(s, env, amount, recipient, offsetAmount, location, projectType, verifier)
    case BurnOp(amount, reason) =>
      BurnKeepsInv(s, env, amount, reason);
      Burn(s, env, amount, reason)
    case AddIssuerOp(issuer) =>
      AddIssuerKeepsInv(s, env, issuer);
      AddIssuer(s, env, issuer)
    case RemoveIssuerOp(issuer) =>
      RemoveIssuerKeepsInv(s, env, issuer);
      RemoveIssuer(s, env, issuer)
    case SetIssuanceFeeOp(fee) => SetIssuanceFee(s, env, fee)
    case PauseMintOp => PauseMint(s, env)
    case UnpauseMintOp => UnpauseMint(s, env)
    case PauseBurnOp => PauseBurn(s, env)
    case UnpauseBurnOp => UnpauseBurn(s, env)
    case SetTokenUriOp(uri) => SetTokenUri(s, env, uri)
    case SetGracePeriodOp(period) => SetGracePeriod(s, env, period)
  }

  /** Performs the requests one after another. */
  function Run(s: LedgerState, calls: seq<Call>): (r: LedgerState)
    requires Inv(s)
    ensures Inv(r)
    ensures r.admin == s.admin && r.maxSupply == s.maxSupply
    decreases |calls|
  {
    if |calls| == 0 then s
    else Run(Apply(s, calls[0].env, calls[0].op).next, calls[1..])
  }

  /** Every state reachable from a fresh ledger keeps the invariant: the
      balances add up to the total supply, the supply stays within its cap,
      the issuer count is the size of the registry, and the grace period
      stays at or below 1440. */
  lemma ReachableStatesKeepInv(maxSupply: nat, calls: seq<Call>)
    ensures var s := Run(Initial(maxSupply), calls);
      && Sum(s.balances) == s.totalSupply
      && s.totalSupply <= maxSupply
      && s.issuerCount == |s.issuers|
      && s.issuerCount <= s.maxIssuers
      && s.gracePeriod <= MaxGracePeriod
      && s.issuanceFee > 0
      && (forall i :: 0 <= i < |s.feeTransfers| ==> s.feeTransfers[i].from == DefaultAdmin)
  {
    var s := Run(Initial(maxSupply), calls);
    assert FeeLogValid(s);
  }
}
