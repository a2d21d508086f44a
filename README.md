# Carbon credit token ledger

This project models the in-memory engine of a carbon-credit fungible token: `CarbonCreditTokenMock` together with its error codes. The engine keeps the following state:

- balances and a total supply capped by `maxSupply`;
- allowances that an owner grants to a spender;
- a registry of credit issuers, with a count and a cap;
- one metadata record per mint and one retirement record per burn, each filed under a credit identifier;
- a log of the issuance fees owed to the admin;
- the admin's switches and parameters: the mint and burn pauses, the issuance fee, the token URI and the grace period.

Every mutating operation runs its checks in a fixed order and returns `{ ok: false, value: <code> }` for the first check that fails, changing nothing. When every check passes, it applies its updates and returns `{ ok: true, value: true }`.

The model has two layers:

- **Specification layer.** `Ledger` holds the whole state as one value, `LedgerState`. It has one step function per operation. Each step function evaluates the operation's checks as a list through `TokenTypes.FirstFailure`, which reports the first failing check.
- **Object layer.** `Token.CarbonCreditToken` is the engine as an object. Its fields are updated in place. Each method is written as the source's chain of early returns. Each method is proved to produce exactly the state and result that its step function produces, and to keep the ledger invariant `Ledger.Inv`.

Around these two layers:

- `LedgerProperties` proves three kinds of facts about the step functions:
  - which error each operation reports, in both directions;
  - that every operation preserves the invariant;
  - how operations compose.
- `Reachability` proves the invariant for every sequence of calls from a fresh ledger.
- `Scenarios` replays the engine's own test cases.
- `AllowanceKeys` models the string keys under which the source files allowances.

The caller and the block height are fields that the host sets before each call, as in the source. Each step function receives them as an `Env`.

## Model

All source paths are in `tests/CarbonCreditToken.test.ts`.

| member | source | states |
|---|---|---|
| TokenTypes.CodeUnits | tests/CarbonCreditToken.test.ts:165 | a character inside the Basic Multilingual Plane is one UTF-16 code unit, any other is two |
| TokenTypes.Utf16Length | tests/CarbonCreditToken.test.ts:165 | a string's `length` in UTF-16 code units lies between its character count and twice that, and is zero exactly for the empty string |
| TokenTypes.Utf16LengthOfBmp | tests/CarbonCreditToken.test.ts:165 | for strings inside the Basic Multilingual Plane the UTF-16 length equals the character count |
| TokenTypes.Utf16LengthOfAstral | tests/CarbonCreditToken.test.ts:165 | for strings made only of characters above the Basic Multilingual Plane the UTF-16 length is twice the character count |
| TokenTypes.Error.Code | tests/CarbonCreditToken.test.ts:4-20 | every failure maps to its numeric code, a number between 100 and 124; 102 (not verified) is never reported |
| TokenTypes.CodesDistinct | tests/CarbonCreditToken.test.ts:4-20 | two failures have the same code exactly when they are the same failure |
| TokenTypes.FirstFailure | tests/CarbonCreditToken.test.ts:159-166 | no failure is reported exactly when every check in the list holds |
| TokenTypes.FirstFailureReportsFirst | tests/CarbonCreditToken.test.ts:159-166 | if check i is the first one that fails, its error is the one reported, whatever the later checks say |
| TokenTypes.FirstFailureHasCause | tests/CarbonCreditToken.test.ts:159-166 | whenever a failure is reported, some check failed first and the failure is that check's error |
| TokenTypes.FirstFailureFrom | tests/CarbonCreditToken.test.ts:159-166 | from any position, a check that fails is reported, and a check that holds hands over to the checks after it |
| TokenTypes.FirstFailureIdentifiesCheck | tests/CarbonCreditToken.test.ts:159-166 | when the checks have distinct errors, check i's error is reported if and only if check i fails first |
| TokenTypes.Verdict | tests/CarbonCreditToken.test.ts:159-166 | the result is `Ok(true)` exactly when no check failed, and otherwise the failure found |
| Balances.Get | tests/CarbonCreditToken.test.ts:87-89 | the stored amount, or zero for an account with no entry |
| Balances.SumRemove | tests/CarbonCreditToken.test.ts:39-59 | the total of a balance map splits into any one entry plus the rest |
| Balances.SumUpdate | tests/CarbonCreditToken.test.ts:133-134 | overwriting one balance changes the total by exactly the difference |
| Balances.SumBound | tests/CarbonCreditToken.test.ts:87-89 | no single balance exceeds the sum of all balances |
| Balances.Credit | tests/CarbonCreditToken.test.ts:167 | the credited account gains the amount, every other account is unchanged, and the total rises by the amount |
| Balances.Debit | tests/CarbonCreditToken.test.ts:180 | the debited account loses the amount, every other account is unchanged, and the total falls by the amount |
| Balances.Move | tests/CarbonCreditToken.test.ts:133-134 | debit-then-credit: the sender loses and the recipient gains the amount, a move to oneself changes nothing, others are untouched, and the total is conserved |
| Ledger.Initial | tests/CarbonCreditToken.test.ts:61-78 | the reset state, with zero supply, empty maps, no issuers and an empty fee log, satisfies the invariant |
| Ledger.Transfer | tests/CarbonCreditToken.test.ts:128-136 | a failure leaves the state unchanged; success requires a positive amount, changes only the balances (sender down and recipient up by the amount, a self-transfer a no-op), and conserves the supply |
| Ledger.Approve | tests/CarbonCreditToken.test.ts:138-143 | a failure leaves the state unchanged; success sets the caller's allowance for the spender to exactly the amount and changes no other allowance or field |
| Ledger.TransferFrom | tests/CarbonCreditToken.test.ts:145-156 | a failure leaves the state unchanged; success needs 0 < amount <= allowance, moves the amount from owner to recipient, lowers that allowance by the amount, touches no other allowance, and conserves the supply |
| Ledger.Mint | tests/CarbonCreditToken.test.ts:158-173 | a failure leaves the state unchanged; success credits the recipient, raises the supply by the amount, files the metadata (block height as timestamp, status active) under the new supply, and appends one fee transfer of the current fee from the caller to the admin |
| Ledger.Burn | tests/CarbonCreditToken.test.ts:175-185 | a failure leaves the state unchanged; success debits the caller, lowers the supply by the amount (never below zero), and files the retirement (reason, height, caller) under the supply left |
| Ledger.AddIssuer | tests/CarbonCreditToken.test.ts:187-195 | a failure leaves the state unchanged; success adds a new issuer below the cap and raises the count by one, keeping count == number of issuers |
| Ledger.RemoveIssuer | tests/CarbonCreditToken.test.ts:197-203 | a failure leaves the state unchanged; success removes a registered issuer and lowers the count by one, keeping count == number of issuers |
| Ledger.SetIssuanceFee | tests/CarbonCreditToken.test.ts:205-210 | a failure leaves the state unchanged; success sets a positive fee and nothing else |
| Ledger.PauseMint | tests/CarbonCreditToken.test.ts:212-216 | a failure leaves the state unchanged; success sets only the mint pause |
| Ledger.UnpauseMint | tests/CarbonCreditToken.test.ts:218-222 | a failure leaves the state unchanged; success clears only the mint pause |
| Ledger.PauseBurn | tests/CarbonCreditToken.test.ts:224-228 | a failure leaves the state unchanged; success sets only the burn pause |
| Ledger.UnpauseBurn | tests/CarbonCreditToken.test.ts:230-234 | a failure leaves the state unchanged; success clears only the burn pause |
| Ledger.SetTokenUri | tests/CarbonCreditToken.test.ts:236-240 | a failure leaves the state unchanged; success replaces only the URI |
| Ledger.SetGracePeriod | tests/CarbonCreditToken.test.ts:242-247 | a failure leaves the state unchanged; success sets a period of at most 1440 and nothing else |
| LedgerProperties.TransferOutcome | tests/CarbonCreditToken.test.ts:128-136 | errors in source order: 100 if the caller is not the sender, then 101, 109, 104; success exactly when all four checks pass (each an iff) |
| LedgerProperties.ApproveOutcome | tests/CarbonCreditToken.test.ts:138-143 | 101 exactly when the amount is not positive, success otherwise |
| LedgerProperties.TransferFromOutcome | tests/CarbonCreditToken.test.ts:145-156 | errors in source order: 101, 109, then 100 when the allowance is short, then 104; success exactly when all pass |
| LedgerProperties.MintOutcome | tests/CarbonCreditToken.test.ts:158-166 | errors in source order: 100, 107, 101, 109, 103, 115, 114, 105, each exactly when its check is the first to fail, with the location measured in UTF-16 code units (1 to 100); success exactly when all pass |
| LedgerProperties.MintErrorIdentifiesCheck | tests/CarbonCreditToken.test.ts:159-166 | the eight mint checks report distinct errors, so mint returns check i's error if and only if check i is the first to fail |
| LedgerProperties.MintCountsLocationInCodeUnits | tests/CarbonCreditToken.test.ts:165 | a location of 51 to 100 characters all above the Basic Multilingual Plane exceeds 100 code units, so an otherwise valid mint fails with 114 |
| LedgerProperties.BurnOutcome | tests/CarbonCreditToken.test.ts:175-179 | errors in source order: 108, 101, 124, 104; success exactly when all pass |
| LedgerProperties.AddIssuerOutcome | tests/CarbonCreditToken.test.ts:187-191 | errors in source order: 100, 109, 111, 120; success exactly when all pass |
| LedgerProperties.RemoveIssuerOutcome | tests/CarbonCreditToken.test.ts:197-199 | 100 for a non-admin, then 110 for an unknown issuer; success otherwise |
| LedgerProperties.SetIssuanceFeeOutcome | tests/CarbonCreditToken.test.ts:205-207 | 100 for a non-admin, then 121 for a fee <= 0; success otherwise |
| LedgerProperties.SetGracePeriodOutcome | tests/CarbonCreditToken.test.ts:242-244 | 100 for a non-admin, then 123 for a period above 1440; success otherwise |
| LedgerProperties.AdminOnlyOutcome | tests/CarbonCreditToken.test.ts:212-240 | the four pause switches and the URI setter succeed exactly for the admin and otherwise fail with 100 |
| LedgerProperties.TransferEarlyReturns | tests/CarbonCreditToken.test.ts:128-136 | transfer is exactly the source's chain of early returns followed by the move, and keeps the invariant |
| LedgerProperties.TransferFromEarlyReturns | tests/CarbonCreditToken.test.ts:145-156 | transfer-from is exactly the chain of early returns followed by the move and the allowance decrement, and keeps the invariant |
| LedgerProperties.MintEarlyReturns | tests/CarbonCreditToken.test.ts:158-173 | mint is exactly the chain of early returns (location length in UTF-16 code units) followed by its four updates, and keeps the invariant |
| LedgerProperties.BurnEarlyReturns | tests/CarbonCreditToken.test.ts:175-185 | burn is exactly the chain of early returns followed by the debit, the lower supply and the retirement record, and keeps the invariant |
| LedgerProperties.AddIssuerEarlyReturns | tests/CarbonCreditToken.test.ts:187-195 | add-issuer is exactly the chain of early returns followed by the registration, and keeps the invariant |
| LedgerProperties.RemoveIssuerEarlyReturns | tests/CarbonCreditToken.test.ts:197-203 | remove-issuer is exactly the chain of early returns followed by the removal, and keeps the invariant |
| LedgerProperties.TransferKeepsInv | tests/CarbonCreditToken.test.ts:128-136 | transfer preserves supply conservation, the supply cap, the null principal's zero balance, the issuer and record invariants |
| LedgerProperties.ApproveKeepsInv | tests/CarbonCreditToken.test.ts:138-143 | approve preserves the invariant |
| LedgerProperties.TransferFromKeepsInv | tests/CarbonCreditToken.test.ts:145-156 | transfer-from preserves the invariant |
| LedgerProperties.MintKeepsInv | tests/CarbonCreditToken.test.ts:158-173 | mint preserves the invariant, in particular totalSupply <= maxSupply and supply == sum of balances |
| LedgerProperties.BurnKeepsInv | tests/CarbonCreditToken.test.ts:175-185 | burn preserves the invariant |
| LedgerProperties.AddIssuerKeepsInv | tests/CarbonCreditToken.test.ts:187-195 | add-issuer keeps issuerCount == number of issuers <= maxIssuers |
| LedgerProperties.RemoveIssuerKeepsInv | tests/CarbonCreditToken.test.ts:197-203 | remove-issuer keeps issuerCount == number of issuers <= maxIssuers |
| LedgerProperties.ApproveTwiceKeepsLast | tests/CarbonCreditToken.test.ts:138-143 | a second approval replaces the first: approving x then y is the same state as approving y alone |
| LedgerProperties.MintThenBurnRestoresSupply | tests/CarbonCreditToken.test.ts:158-185 | minting an amount to a holder and having the holder burn it restores the supply and the holder's balance, leaving both records behind |
| LedgerProperties.CreditIdentifierReused | tests/CarbonCreditToken.test.ts:168-170 | credit ids are supply values: mint, burn the same amount, mint again, and the second mint's metadata overwrites the first under the same id |
| LedgerProperties.AddThenRemoveIssuerRestores | tests/CarbonCreditToken.test.ts:187-203 | a successful registration followed by removal of the same issuer restores the exact previous state |
| Reachability.Apply | tests/CarbonCreditToken.test.ts:128-247 | any single operation on a state satisfying the invariant keeps the invariant, changes nothing on failure, and never changes the admin or the cap |
| Reachability.Run | tests/CarbonCreditToken.test.ts:128-247 | any sequence of operations keeps the invariant, the admin and the cap |
| Reachability.ReachableStatesKeepInv | tests/CarbonCreditToken.test.ts:61-247 | from a fresh ledger, after any calls: balances sum to the supply, supply <= cap, issuerCount == number of issuers <= maxIssuers, grace period <= 1440, fee > 0, every fee is paid by the admin |
| Token.CarbonCreditToken.constructor | tests/CarbonCreditToken.test.ts:39-59 | a new engine holds the reset state with the default cap, the default admin as caller, height zero, the default URI and zero supply |
| Token.CarbonCreditToken.Reset | tests/CarbonCreditToken.test.ts:80-85 | reset restores the initial state (default URI, zero supply), caller and height, keeping the supply cap |
| Token.CarbonCreditToken.GetBalance | tests/CarbonCreditToken.test.ts:87-89 | the stored balance of a known account, zero for an unknown one; never above the total supply; zero for the null principal |
| Token.CarbonCreditToken.GetTotalSupply | tests/CarbonCreditToken.test.ts:91-93 | the supply equals the sum of all balances and is within the cap |
| Token.CarbonCreditToken.GetName | tests/CarbonCreditToken.test.ts:95-97 | the name is the constant "Carbon Credit" |
| Token.CarbonCreditToken.GetSymbol | tests/CarbonCreditToken.test.ts:99-101 | the symbol is the constant "CCREDIT" |
| Token.CarbonCreditToken.GetDecimals | tests/CarbonCreditToken.test.ts:103-105 | the number of decimals is the constant 6 |
| Token.CarbonCreditToken.GetTokenUri | tests/CarbonCreditToken.test.ts:107-109 | the URI held in the state: the default after construction or reset, then the last one the admin set |
| Token.CarbonCreditToken.GetAllowance | tests/CarbonCreditToken.test.ts:111-114 | the approved amount for the (owner, spender) pair, zero if never approved |
| Token.CarbonCreditToken.GetCreditMetadata | tests/CarbonCreditToken.test.ts:116-118 | the record stored under the id, or none when none was filed; a stored record has a positive offset, a location of 1-100 UTF-16 code units and active status, under an id in 1..maxSupply |
| Token.CarbonCreditToken.GetCreditRetirement | tests/CarbonCreditToken.test.ts:120-122 | the record stored under the id, or none when none was filed; its reason is non-empty and its id is below the cap |
| Token.CarbonCreditToken.IsIssuer | tests/CarbonCreditToken.test.ts:124-126 | true exactly for registered issuers; never the null principal |
| Token.CarbonCreditToken.Transfer | tests/CarbonCreditToken.test.ts:128-136 | the in-place update produces the result and new state of `Ledger.Transfer` and keeps the invariant |
| Token.CarbonCreditToken.Approve | tests/CarbonCreditToken.test.ts:138-143 | matches `Ledger.Approve` and keeps the invariant |
| Token.CarbonCreditToken.TransferFrom | tests/CarbonCreditToken.test.ts:145-156 | matches `Ledger.TransferFrom` and keeps the invariant |
| Token.CarbonCreditToken.Mint | tests/CarbonCreditToken.test.ts:158-173 | matches `Ledger.Mint` and keeps the invariant |
| Token.CarbonCreditToken.Burn | tests/CarbonCreditToken.test.ts:175-185 | matches `Ledger.Burn` and keeps the invariant |
| Token.CarbonCreditToken.AddIssuer | tests/CarbonCreditToken.test.ts:187-195 | matches `Ledger.AddIssuer` and keeps the invariant |
| Token.CarbonCreditToken.RemoveIssuer | tests/CarbonCreditToken.test.ts:197-203 | matches `Ledger.RemoveIssuer` and keeps the invariant |
| Token.CarbonCreditToken.SetIssuanceFee | tests/CarbonCreditToken.test.ts:205-210 | matches `Ledger.SetIssuanceFee` and keeps the invariant |
| Token.CarbonCreditToken.PauseMint | tests/CarbonCreditToken.test.ts:212-216 | matches `Ledger.PauseMint` and keeps the invariant |
| Token.CarbonCreditToken.UnpauseMint | tests/CarbonCreditToken.test.ts:218-222 | matches `Ledger.UnpauseMint` and keeps the invariant |
| Token.CarbonCreditToken.PauseBurn | tests/CarbonCreditToken.test.ts:224-228 | matches `Ledger.PauseBurn` and keeps the invariant |
| Token.CarbonCreditToken.UnpauseBurn | tests/CarbonCreditToken.test.ts:230-234 | matches `Ledger.UnpauseBurn` and keeps the invariant |
| Token.CarbonCreditToken.SetTokenUri | tests/CarbonCreditToken.test.ts:236-240 | matches `Ledger.SetTokenUri` and keeps the invariant |
| Token.CarbonCreditToken.SetGracePeriod | tests/CarbonCreditToken.test.ts:242-247 | matches `Ledger.SetGracePeriod` and keeps the invariant (so the period stays <= 1440) |
| Scenarios.As | tests/CarbonCreditToken.test.ts:278 | a call made by the given account at height zero |
| Scenarios.MintsTokens | tests/CarbonCreditToken.test.ts:258-267 | mint of 1000 succeeds: balance 1000, supply 1000, one fee of 1000 from admin to admin, metadata at id 1000 with offset 1000 and type "forest" |
| Scenarios.RejectsMintWhenPaused | tests/CarbonCreditToken.test.ts:269-274 | after pausing, mint fails with code 107 |
| Scenarios.TransfersTokens | tests/CarbonCreditToken.test.ts:276-283 | after the mint, a transfer of 500 leaves 500 with each user |
| Scenarios.RejectsTransferWithInsufficientBalance | tests/CarbonCreditToken.test.ts:285-291 | a transfer of 1500 out of 1000 fails with code 104 |
| Scenarios.ApprovesAndTransfersFrom | tests/CarbonCreditToken.test.ts:293-303 | approve 600, transfer-from 500: owner and recipient hold 500 each and 100 stays approved |
| Scenarios.BurnsTokens | tests/CarbonCreditToken.test.ts:305-314 | burning 500 of 1000 leaves balance and supply 500 and the reason filed under id 500 |
| Scenarios.RejectsBurnWhenPaused | tests/CarbonCreditToken.test.ts:316-323 | after pausing burns, burn fails with code 108 |
| Scenarios.AddsAndRemovesIssuer | tests/CarbonCreditToken.test.ts:325-334 | adding an issuer makes it an issuer with count 1; removing it undoes both |
| Scenarios.SetsIssuanceFee | tests/CarbonCreditToken.test.ts:336-340 | the fee becomes 2000 |
| Scenarios.SetsGracePeriod | tests/CarbonCreditToken.test.ts:342-346 | the grace period becomes 288 |
| Scenarios.RejectsInvalidGracePeriod | tests/CarbonCreditToken.test.ts:348-352 | 1441 fails with code 123 |
| Scenarios.RejectsMintWithInvalidProjectType | tests/CarbonCreditToken.test.ts:354-358 | project type "invalid" fails with code 115 |
| Scenarios.RejectsMintExceedingMaxSupply | tests/CarbonCreditToken.test.ts:360-366 | with the cap at 1000, a mint of 1000 succeeds and a further mint of 1 fails with code 105 |
| Scenarios.RejectsAddIssuerWhenMaxExceeded | tests/CarbonCreditToken.test.ts:368-373 | with the cap at 0 issuers, registration fails with code 120 |
| AllowanceKeys.JoinedKey | tests/CarbonCreditToken.test.ts:112 | the key is the owner, one hyphen, then the spender |
| AllowanceKeys.ApproveJoined | tests/CarbonCreditToken.test.ts:138-143 | approve over string keys sets the joined key and leaves every other key alone |
| AllowanceKeys.JoinedKeyInjective | tests/CarbonCreditToken.test.ts:112 | when neither owner contains a hyphen, equal keys mean equal (owner, spender) pairs |
| AllowanceKeys.JoinedKeysCollide | tests/CarbonCreditToken.test.ts:140 | the pairs ("a-b","c") and ("a","b-c") differ but share a key, so an approval for one is read as the other's allowance |

## Left out

- The test harness itself (vitest's `describe`/`it`/`expect`) is not modelled. Its cases are restated as the lemmas in `Scenarios`.
- Actual movement of STX is left out. Only the log of fee transfers that `mint` schedules (`stxTransfers`) is modelled, as `feeTransfers` inside `LedgerState`. The source keeps `stxTransfers` and `maxSupply` next to `state`; the model keeps them in the same record.
- The `{ ok: true }` wrappers of `getTotalSupply`, `getName`, `getSymbol`, `getDecimals` and `getTokenUri` carry no behaviour; those getters are modelled as returning the value.
- Strings are sequences of Unicode code points. Where the source compares `location.length` with 0 and 100 (lines 163 and 165), the model measures `TokenTypes.Utf16Length`, the UTF-16 code units JavaScript counts. The emptiness tests on the project type and the reason (lines 163 and 178) use the character count, which is zero exactly when the UTF-16 length is.
- JavaScript numbers are modelled as unbounded integers:
  - amounts and fees are `int` where the source accepts any number;
  - fractional amounts, NaN and floating-point rounding are out of scope;
  - balances, supply and counters are `nat`.
- Code 102 (not verified) is declared by the source but never returned. It is not modelled.
- The caller and the block height are fields the host writes before each call (`caller`, `blockHeight`); nothing in the model chooses them. The tests' direct writes to `maxSupply` and `state.maxIssuers` have no operation in the source. `Scenarios` models them as start states with that field replaced.
- Issuers are a set, where the source uses a `Map<string, boolean>`. The source only ever stores `true`, and `isIssuer` treats a missing entry as `false`, so the two agree.
- Ledger.Burn: requires that the balances add up to the supply. Without it, a burn could take `totalSupply` below zero, which a `nat` cannot hold. `Reachability.ReachableStatesKeepInv` shows that this holds in every reachable state.
- Ledger.RemoveIssuer: requires `issuerCount == |issuers|` for the same reason: the count must not go below zero. It too holds in every reachable state.
- LedgerProperties.BurnOutcome and LedgerProperties.RemoveIssuerOutcome inherit those preconditions.
- Token.CarbonCreditToken.Transfer and the other methods require `Valid()`, the ledger invariant. A fresh object and every method establish it. The tests' direct writes to limits bypass the methods, so the object layer does not cover them.
- Ledger.SetGracePeriod: like the source, it accepts zero and negative periods. Only the upper bound 1440 is checked and proved.
- Ledger.MetadataValid does not record that the project type belongs to the closed list, although `mint` checks it. The list membership is proved per call by `LedgerProperties.MintOutcome`.
- Scenarios: the tests' accounts ("ST1USER", "ST1OWNER", ...) are parameters. Each lemma assumes only that they are distinct where the test's are and are not the null principal. The concrete strings satisfy these conditions.

## Findings

| source | as written | input that shows it | evidently intended | confidence | as-written member | corrected member |
|---|---|---|---|---|---|---|
| tests/CarbonCreditToken.test.ts:140 | allowances are filed under the string `${owner}-${spender}` (also lines 112 and 146), so two different (owner, spender) pairs can share a key once a principal contains a hyphen | owner "a-b" approving spender "c" sets the allowance that `getAllowance("a", "b-c")` then reports | one allowance per (owner, spender) pair, independent of every other pair | not executed; follows from string concatenation | AllowanceKeys.JoinedKeysCollide | Ledger.Approve |

The ledger itself keys allowances by the pair `(owner, spender)`. `Ledger.Approve` proves that an approval changes only the caller's allowance for that spender. `AllowanceKeys.JoinedKeyInjective` shows that the source's keys are also collision-free as long as no owner contains a hyphen.
