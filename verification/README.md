# Governed execution: models and proofs

The repository is about one idea: an action runs only after it has been verified,
approved, bound to a single-use token, executed once, and recorded in a hash-chained
ledger. This project models the code that carries that idea, component by component, and
proves what the design promises of it. `dafny verify dfyconfig.toml` checks everything.

| file | models |
|---|---|
| Wrappers.dfy | optional values |
| Json.dfy | canonical JSON: the text that every hash is taken over |
| Hashing.dfy | the hash as a parameter, and chains of hashed entries of any type |
| Ledger.dfy | the ledger table of db.ts |
| Intents.dfy, Verification.dfy, Reasons.dfy, Gate.dfy, Receipts.dfy, ClosedLoop.dfy | the control plane, stage by stage, as functions |
| ControlPlane.dfy | the control plane's module state and its operations |
| ExecutionGate.dfy | the Python execution gate: threads, lock, ledger, verifier |
| Authority.dfy | signed policies and authorization tokens |
| ReceiptChain.dfy | canonical receipts, and restoring the chain after a restart |
| PgtcSystem.dfy | the compliance harness with its write-ahead pairs |
| RioEngine.dfy | the v2 engine: intents, approvals, receipts, ledger |
| EmailApproval.dfy | one-click approval by email |
| Orchestrator.dfy | the Python orchestrator and its tokens |
| ActionStore.dfy | the shared action store and the continuity counters |
| PatternSelector.dfy | pattern selection |
| PolicyEvaluator.dfy | the two-level most-restrictive fold |
| DeviceSync.dfy | incremental ledger paging |

Where the source updates an object, there is a class with its fields, and every method is
proved equal to a step function on values; what the source promises is then proved of
those functions over every input and every run. SHA-256 is any function from text to
text; a theorem that needs it to be collision free, or to miss an anchor, says so
(`Hashing.IdealHashExists` shows that the two assumptions can hold together). Signatures
are functions or predicates given as parameters. Clock reads, fresh ids, the outcome of
adapters and connectors, and whether a database answers are inputs.

## Where the code differs from what it says

The model follows the code. In each of these places a promise of the code's own comments
or names is false in general, and the exact condition, or the input that shows it, is
proved.

- The selector's rule "constraint + risk must be present if they exist" (line 150 of
  select_patterns.py) writes the same last slot up to three times. `PatternSelector.PresentIff`
  gives the exact conditions, `PatternSelector.ConstraintIsDropped` a corpus.
- Emailed tokens are "single-use, survives restarts" only for the first email about an
  intent: the table's intent column is unique, a failed insert is ignored, and the link is
  sent all the same (`EmailApproval.AtMostOnceIffPersisted`, `EmailApproval.SecondEmailApprovesAgain`).
- The nonce cache is not bounded by MAX_NONCE_HISTORY: looking up a nonce used before a
  restart adds to it and never prunes (`EmailApproval.CacheOverflowsIff`, `EmailApproval.ReclicksGrowCache`).
- `validateAuthorizationToken` reads count, limit, expiry, hashes and signature of the
  object it is given and raises the stored one's count. A copy that passes once passes
  every time, and the limit holds exactly under a condition on the stored object
  (`Authority.CopyPassesEveryTime`, `Authority.LimitHoldsIff`, `Authority.SomeCopyPassesIff`).
- `executeClosedLoop` draws the decision id that an approval has to name after the approval
  was handed in, so MEDIUM and HIGH requests never complete
  (`ClosedLoop.NewDecisionIdRefusesApprovals`). The model takes the id as an input, which
  also says what the binding is worth to a caller that knows it.
- The execution gate hashes agent, approver and intent id as they are in the token and
  stores them in TEXT columns: a number there makes the integrity check fail for good
  (`ExecutionGate.LedgerIntactIff`, `ExecutionGate.AgentSevenBreaksLedger`), and a list or
  object makes an allowed call run without a row (`ExecutionGate.SettledCallHasRowIff`).
- `pending_actions` also counts completed actions, and `completed_actions_count` counts
  nothing (`ActionStore.PendingIsOpenWorkIff`).
- `expiry_minutes=0` gives the policy's expiry, not a token that is already out of date
  (`Orchestrator.ExpiredAtIssueIff`).
- A failed adapter or an invalid outcome leaves the harness's nonce free although the
  adapter ran, so the adapter can run twice for one packet (`PgtcSystem.RunsAdapterIff`,
  `PgtcSystem.AdapterRunsTwice`).
- `entryCount` in a device sync is the last row id (`DeviceSync.EntryCountIff`).
- `appendLedger` reads and then inserts without a lock, so its chain holds for serial
  callers only: exactly when no read is stale (`Ledger.RacedIntactIff`).
- A policy can override a verdict that no safeguard or other policy spoke to, in the
  loosening direction (`PolicyEvaluator.AddingNeverLoosensIff`).

## Model

| member | source | states |
|---|---|---|
| Json.CanonicalText | legacy/one-app/server/controlPlane.ts:50-61 | two JSON values print the same canonical text if and only if they are equal up to the order of object keys, at any depth |
| Json.StringifyUnique | legacy/one-app/server/controlPlane.ts:50-61 | a canonical text determines its value even when more text follows it: equal concatenations split at the same place |
| Json.StringifyRespects | legacy/one-app/server/controlPlane.ts:50-61 | values that differ only in key order, anywhere inside, print the same text |
| Json.SortedIsUnique | legacy/one-app/server/controlPlane.ts:55-59 | there is one sorted list of a given set of keys, whatever order they were inserted in |
| Json.PermutationKeepsMeaning | legacy/one-app/server/controlPlane.ts:55-59 | the same members in another insertion order are the same value |
| Json.RecordBinds | legacy/one-app/server/controlPlane.ts:67-69 | equal texts of two records with the same field names mean equal values field by field |
| Json.DecimalInjective | legacy/one-app/server/controlPlane.ts:50-61 | different integers print different number texts |
| Hashing.TamperEvident | legacy/one-app/server/db.ts:106-123 | two intact chains that end in the same hash have the same length and the same entries; proved for any entry type whose hash binds its fields |
| Ledger.HashBindsEntry | legacy/one-app/server/db.ts:79-98 | under a collision-free hash, equal entry hashes mean equal id, type, link, timestamp and payload up to key order |
| Ledger.TamperEvidence | legacy/one-app/server/db.ts:87-123 | two ledgers that both pass the audit and end in the same hash are equal entry by entry, so no edit, insertion, deletion or reordering keeps the tip |
| Ledger.SerialisedIsIntact | legacy/one-app/server/db.ts:87-98 | every ledger built by appends that run one at a time passes the audit |
| Ledger.StoreMayReorderKeys | legacy/one-app/server/db.ts:63-77 | a ledger that passes still passes after the store gives payload keys back in another order |
| Ledger.RacedIntactIff | legacy/one-app/server/db.ts:87-98 | for any schedule of reads and inserts by any number of callers, the audit passes if and only if every append had read the last row: one stale read is reported for good |
| Ledger.LedgerTable.AppendLedger | legacy/one-app/server/db.ts:87-98 | adds exactly one row, linked to the last hash or GENESIS and sealed with its own hash; an intact table stays intact |
| Ledger.LedgerTable.VerifyHashChain | legacy/one-app/server/db.ts:106-123 | valid exactly when every row links and recomputes; the error list names every break once, in row order, a wrong link before a wrong hash |
| Intents.HashBindsEnvelope | legacy/one-app/server/controlPlane.ts:67-69 | equal envelope hashes mean the same envelope in all fifteen fields, up to key order in the free-form parts |
| Verification.VerifiedIffNoFailure | legacy/one-app/server/controlPlane.ts:149-232 | the verified flag and an empty list of failure reasons always agree |
| Verification.VerifiedIff | legacy/one-app/server/controlPlane.ts:149-232 | verified exactly if every required field is there, parameters are an object or array, the source is one of four, the actor is in the list if one is given, a required signature has ten characters, the age is 0 to 300000 ms, and the nonce is not in the cache or was seen more than 600000 ms ago |
| Verification.RememberedIff | legacy/one-app/server/controlPlane.ts:206-214 | after a call the cache holds the nonces of the last ten minutes with the times they were first seen, and the call's own nonce unless it is empty |
| Verification.FlagsIff | legacy/one-app/server/controlPlane.ts:178-232 | what each flag of the result says, whatever the others do |
| Verification.ReportedIff | legacy/one-app/server/controlPlane.ts:155-214 | exactly which failure reasons are reported, with the age, actor, source type and nonce they name |
| Verification.EmptyReportedIff | legacy/one-app/server/controlPlane.ts:160-168 | exactly which required fields are reported as missing or empty |
| Verification.RecordedNonceNeverVerifies | legacy/one-app/server/controlPlane.ts:123-141 | once a nonce is recorded, no envelope with it and an earlier timestamp is ever verified, although the cache forgets after ten minutes |
| Verification.VerifiedAtMostOnce | legacy/one-app/server/controlPlane.ts:123-232 | over any run with a clock that does not go back, the same envelope is verified at most once, if the two clock reads in a call differ by at most the five minutes between the two lifetimes |
| Verification.LargerSlackVerifiesTwice | legacy/one-app/server/controlPlane.ts:123-232 | the five minutes are exact: for every larger allowance there is a run that verifies one envelope twice |
| ControlPlane.Runtime.CleanExpiredNonces | legacy/one-app/server/controlPlane.ts:127-135 | keeps exactly the nonces that are at most ten minutes old, in both collections |
| ControlPlane.Runtime.EmptyFieldFailures | legacy/one-app/server/controlPlane.ts:160-168 | lists the missing or empty required fields in their fixed order |
| ControlPlane.Runtime.CheckSchema | legacy/one-app/server/controlPlane.ts:160-176 | the schema flag is true exactly for a complete envelope with object parameters and a known source type |
| ControlPlane.Runtime.RecordNonce | legacy/one-app/server/controlPlane.ts:206-214 | true exactly if the nonce was not in the purged cache; a new nonce is recorded with the first clock read |
| ControlPlane.Runtime.VerifyIntentEnvelope | legacy/one-app/server/controlPlane.ts:149-232 | computes the result that VerifiedIff, FlagsIff and ReportedIff describe from the fields, and leaves the purged cache with a new nonce recorded, whatever the verdict |
| Gate.ValidApprovalAuthorizes | legacy/one-app/server/controlPlane.ts:327-347 | an approval has no fault exactly when it is APPROVED for this decision and carries the hash of this very envelope and an artifact of ten characters |
| Gate.GovernanceIs | legacy/one-app/server/controlPlane.ts:256-305 | a decision exists exactly for a verified intent; only the LOW tier is approved without a human; it names the intent, the verification and the policy version |
| Gate.ScoreIs | legacy/one-app/server/controlPlane.ts:256-305 | the risk score is the base plus one for every two arguments, capped at ten; eight or more asks for a review outside LOW and MEDIUM |
| Gate.HashBindsAction | legacy/one-app/server/controlPlane.ts:373-401 | equal action hashes mean the same action type, target and parameters |
| Gate.FreshTokenPasses | legacy/one-app/server/controlPlane.ts:373-477 | a token passes against its own envelope and governance exactly while it is stored unused and less than its time to live has gone by |
| Gate.TokenBindsAction | legacy/one-app/server/controlPlane.ts:373-477 | a token lets through only the action, target, parameters, intent hash and policy version it was issued for |
| Gate.PassesAtMostOnce | legacy/one-app/server/controlPlane.ts:407-477 | over any run of issues and preflights, whatever altered copies are presented, one token id passes at most once |
| ControlPlane.Runtime.IssueExecutionToken | legacy/one-app/server/controlPlane.ts:373-401 | stores and returns a token bound to the decision and the action |
| ControlPlane.Runtime.ExecuteGatePreflight | legacy/one-app/server/controlPlane.ts:407-477 | six checks, and only a full pass marks the stored token used |
| Receipts.ReceiptHashCoversCustody | legacy/one-app/server/controlPlane.ts:513-564 | equal receipt hashes mean the same id, the same verification, decision and approval record field by field, the same token id, and the same result up to key order |
| Receipts.ApprovalHashBinds | legacy/one-app/server/controlPlane.ts:521-527 | equal approval hashes mean the same approver, decision, intent hash, status, method, artifact, time and notes |
| Receipts.VerificationHashBinds | legacy/one-app/server/controlPlane.ts:521-527 | equal verification hashes mean the same flags, reasons, ids and time |
| Receipts.GovernanceHashBinds | legacy/one-app/server/controlPlane.ts:521-527 | equal decision hashes mean the same decision, tier, score, reasons and ids |
| Receipts.ResultBinds | legacy/one-app/server/controlPlane.ts:528-532 | equal result records mean the same success, time, output and metadata up to key order; an absent metadata is not an empty one |
| Reasons.FailureTextBinds | legacy/one-app/server/controlPlane.ts:155-214 | no two failure reasons print the same text |
| Receipts.EntryHashCoversReceipt | legacy/one-app/server/controlPlane.ts:584-616 | equal ledger entry hashes mean the same receipt hash, block index, previous hash and timestamp |
| ClosedLoop.CompletesIff | legacy/one-app/server/controlPlane.ts:854-957 | the loop completes exactly when the envelope is verified, the tier is LOW or a human approved this very envelope in this very decision, and the gate is reached in time |
| ClosedLoop.CompletesExactly | legacy/one-app/server/controlPlane.ts:854-957 | in any run, a request completes exactly under the conditions on its own fields, clock reads, cache, tier and approval record, all spelled out |
| ClosedLoop.ConnectorCalledIffComplete | legacy/one-app/server/controlPlane.ts:854-957 | the connector is called once, with the envelope's parameters, exactly when the stage is COMPLETE, and otherwise never |
| ClosedLoop.ExecutedParametersWereApproved | legacy/one-app/server/controlPlane.ts:854-957 | above the LOW tier, for a caller that knows the decision id beforehand, what the connector receives are the parameters of the envelope whose hash was approved |
| ClosedLoop.NewDecisionIdRefusesApprovals | legacy/one-app/server/controlPlane.ts:256-305 | since the decision id is drawn inside the call, no approval handed in names it, and the loop completes exactly for a verified LOW tier envelope in time; any other verified request is refused |
| ClosedLoop.OnlyLowTierExecutes | legacy/one-app/server/controlPlane.ts:854-957 | so in any run only LOW tier requests are executed |
| ClosedLoop.CustodyMatchesRun | legacy/one-app/server/controlPlane.ts:900-957 | a completed loop vouches for its own envelope, a verified result, one intent hash throughout, the ids and times of its own steps, and its own used token, which is the one stored |
| ClosedLoop.EntryHashCoversCustody | legacy/one-app/server/controlPlane.ts:513-616 | equal entry hashes come from the same verification, decision and approval records, token id, result, block index and previous hash |
| ClosedLoop.EntryHashCoversRun | legacy/one-app/server/controlPlane.ts:854-957 | two completed loops with one entry hash had the same envelope, the same approval by the same human, the same token and the same result |
| ClosedLoop.CustodyTellsResult | legacy/one-app/server/controlPlane.ts:910-957 | receipt and ledger entry carry what the connector returned, or that it threw and what |
| ClosedLoop.ExecutedAtMostOnce | legacy/one-app/server/controlPlane.ts:854-957 | over any run of requests the same envelope is executed at most once, however many approvals there are |
| ClosedLoop.ConnectorLogIsCompletedRequests | legacy/one-app/server/controlPlane.ts:854-957 | after any run the connector calls are exactly the parameters of the completed requests, in order |
| ControlPlane.Runtime.ExecuteClosedLoop | legacy/one-app/server/controlPlane.ts:854-957 | computes the specified outcome and state; a receipt and a ledger entry exist exactly for a completed loop |
| ExecutionGate.ExecutorRanIffAuthentic | legacy/archive/backend/execution_gate.py:392-523 | under every interleaving, when a call has returned or raised, its executor ran exactly if its token was complete, within 300 seconds either way, and signed under a configured key |
| ExecutionGate.InterleavingKeepsInv | legacy/archive/backend/execution_gate.py:186-234 | for any number of threads and any interleaving: exclusive lock, current reads under it, one row per finished call, anchored receipts, linked rows |
| ExecutionGate.LedgerStaysLinked | legacy/archive/backend/execution_gate.py:186-234 | each row links to the one before under every interleaving |
| ExecutionGate.LedgerIntactIff | legacy/archive/backend/execution_gate.py:345-387 | under every interleaving the ledger passes the integrity check exactly if every recorded agent, approver and intent id was a text or absent, so that the TEXT columns give back what was hashed |
| ExecutionGate.RejectedForGood | legacy/archive/backend/execution_gate.py:345-387 | a ledger that is rejected once stays rejected whatever is done next |
| ExecutionGate.AgentSevenBreaksLedger | legacy/archive/backend/execution_gate.py:206-219 | one refused call with the token {"agent": 7} is enough |
| ExecutionGate.SettledCallHasRowIff | legacy/archive/backend/execution_gate.py:392-523 | a call that has returned or raised has a row exactly if the fields it records can be bound; a list or object there raises after the executor ran and leaves no row |
| ExecutionGate.FinishedCallAddedOneRow | legacy/archive/backend/execution_gate.py:392-523 | a finished call made exactly one row; it records that call; its receipt exists exactly if the executor returned, and is anchored to GENESIS or an earlier row |
| ExecutionGate.RowTellsToken | legacy/archive/backend/execution_gate.py:392-523 | the row of a finished call holds the agent and intent id of its token, its approver only if it was let through, says executed exactly if the executor returned, and then carries the signature of its receipt |
| ExecutionGate.RowWithoutToken | legacy/archive/backend/execution_gate.py:426-445 | a call without a token is recorded as unknown and blocked |
| ExecutionGate.RowsComeFromFinishedCalls | legacy/archive/backend/execution_gate.py:186-234 | every row comes from exactly one call, which is past its insert |
| ExecutionGate.ExecutorRunsOnceIfAllowed | legacy/archive/backend/execution_gate.py:392-523 | no executor runs twice for one call or without an allowed token |
| ExecutionGate.NeverStuck | legacy/archive/backend/execution_gate.py:186-234 | while any call is unfinished some thread can move |
| ExecutionGate.VerifyLedgerIntegrity | legacy/archive/backend/execution_gate.py:345-387 | valid exactly for an intact chain; otherwise names the first broken row and whether its link or its hash is wrong |
| Authority.ParametersHashBinds | legacy/one-app/server/authorityLayer.ts:236-238 | equal parameter hashes mean the same action and arguments |
| Authority.CountIsPasses | legacy/one-app/server/authorityLayer.ts:311-389 | whatever copies are presented, a stored token's execution_count is the number of validations that passed for it |
| Authority.StoredTokenTracksIssue | legacy/one-app/server/authorityLayer.ts:244-280 | a stored token differs from the issued one only in its count |
| Authority.PassesAtMostMax | legacy/one-app/server/authorityLayer.ts:311-389 | on stored objects, a token passes at most max(0, max_executions) times in the whole run |
| Authority.NothingPassesAfterBurn | legacy/one-app/server/authorityLayer.ts:292-297 | after a burn that found the token no validation of its id passes |
| Authority.PassMeans | legacy/one-app/server/authorityLayer.ts:311-389 | each pass: token stored and unexpired, kill switch off, and action, arguments and active policy those it was issued for |
| Authority.PolicyHashBinds | legacy/one-app/server/authorityLayer.ts:150-153 | equal policy hashes mean the same policy id and the same seven rules |
| Authority.ActivatedBy | legacy/one-app/server/authorityLayer.ts:159-189 | the active policy is what some activation with a root key and a 64-character signature brought, hashed from its own id and rules |
| Authority.RevokedPassesNothing | legacy/one-app/server/authorityLayer.ts:201-206 | over any run, after a revocation no policy is active and no token passes until a policy is activated |
| Authority.PassesUnderItsPolicy | legacy/one-app/server/authorityLayer.ts:311-389 | a token passes only under the policy it was issued under: the same id and rules |
| Authority.IssuedWith | legacy/one-app/server/authorityLayer.ts:244-280 | a token is issued with the expiry and limit of its grant, or else of the policy, and with the hash of its action and arguments |
| Authority.LimitHoldsIff | legacy/one-app/server/authorityLayer.ts:311-389 | whatever is presented, a token passes at most max(0, max_executions) times throughout a run if and only if each passing validation found the stored count below the stored limit |
| Authority.CopyPassesEveryTime | legacy/one-app/server/authorityLayer.ts:347-389 | a presented object that passes once passes n times for every n, with the stored count raised by n |
| Authority.SomeCopyPassesIff | legacy/one-app/server/authorityLayer.ts:311-389 | some object with a given id passes, for whatever action, arguments and time, exactly if the id is stored, a policy is active and the kill switch is off: every other check reads the presented object |
| Authority.AuthorityLayer.ActivatePolicy | legacy/one-app/server/authorityLayer.ts:159-189 | the new policy is the only ACTIVE object, an active one before it becomes SUPERSEDED, others keep their status; a bad signature changes nothing |
| Authority.AuthorityLayer.RevokePolicy | legacy/one-app/server/authorityLayer.ts:201-206 | no policy object is ACTIVE afterwards and only the current one changed |
| Authority.AuthorityLayer.IssueAuthorizationToken | legacy/one-app/server/authorityLayer.ts:244-280 | issues and stores a token exactly if a policy is active |
| Authority.AuthorityLayer.ValidateAuthorizationToken | legacy/one-app/server/authorityLayer.ts:311-389 | checks the presented token, counts up the stored one on a pass |
| Authority.AuthorityLayer.BurnAuthorizationToken | legacy/one-app/server/authorityLayer.ts:292-297 | removes the token, and says whether it was there |
| ReceiptChain.ReceiptHashBinds | legacy/one-app/server/authorityLayer.ts:442-533 | equal receipt hashes mean equal receipts in every field and the same link |
| ReceiptChain.SnapshotHashBinds | legacy/one-app/server/authorityLayer.ts:442-533 | the snapshot hash in a receipt binds the whole active policy |
| ReceiptChain.GeneratedIsIntact | legacy/one-app/server/authorityLayer.ts:442-533 | the receipts of any run form an intact chain from the hash it started with |
| ReceiptChain.GeneratedSplits | legacy/one-app/server/authorityLayer.ts:442-533 | a run split in two, the second part starting at the tip of the first, gives the same receipts |
| ReceiptChain.RestartIsInvisible | legacy/one-app/server/driveRestore.ts:139-164 | persist, restart from genesis, restore and go on: the joined receipts are those of a process that never stopped, and they verify |
| ReceiptChain.SeamDecides | legacy/one-app/server/driveRestore.ts:37-77 | after any restore the joined list verifies exactly if the restored hash is the persisted tail, and otherwise breaks at the seam and nowhere else |
| ReceiptChain.VerifyChainIntegrity | legacy/one-app/server/driveRestore.ts:37-77 | valid exactly for a linked list; otherwise the least index at which it breaks |
| ReceiptChain.ReceiptLog.GenerateCanonicalReceipt | legacy/one-app/server/authorityLayer.ts:442-533 | without a policy nothing happens; with one, the process's chain grows by the returned receipt |
| ReceiptChain.ReceiptLog.RestoreFromDrive | legacy/one-app/server/driveRestore.ts:97-164 | a process still at genesis takes the anchor, or else the ledger tail; any other keeps its hash, and a broken ledger does not stop it |
| PgtcSystem.AllowsIff | compliance/harness/system.ts:242-421 | in a run, a call is ALLOWed exactly if it is signed, passes TES, verification, token and gate, no earlier call with its nonce was allowed, and adapter and outcome raise nothing |
| PgtcSystem.AdapterCalledExactly | compliance/harness/system.ts:242-421 | in a run, the adapter is called for a packet exactly under conditions on its own fields, its HMAC, the clock, the inputs and the earlier calls, once, with its own action and parameters |
| PgtcSystem.CacheAfter | compliance/harness/system.ts:275-305 | which envelope nonces a call leaves in the replay cache, and with what times: only a call that gets past TES, nonce and signature touches it |
| PgtcSystem.JoinedGrows | compliance/harness/system.ts:305-311 | the failure reasons of a refused verification are joined in order into the entry's reason |
| PgtcSystem.EntriesTell | compliance/harness/system.ts:242-345 | the first entry of a call names the first check that stopped it, at its place, with the hash of the packet |
| PgtcSystem.EndingTells | compliance/harness/system.ts:346-421 | PREPARED is followed by the entry for how the adapter call ended, and only a commit consumes the nonce |
| PgtcSystem.IntentHashBinds | compliance/harness/system.ts:242-262 | equal intent hashes mean the same intent, action, target, nonce and parameters |
| PgtcSystem.LedgerTamperEvidence | compliance/harness/system.ts:140-187 | two intact harness ledgers that end in one hash are equal entry by entry |
| PgtcSystem.StepKeepsInv | compliance/harness/system.ts:140-187 | every operation keeps the chain intact and numbered, the counts in balance and the write-ahead pairs complete |
| PgtcSystem.Conservation | compliance/harness/system.ts:242-421 | after any sequence: PREPARED = governed adapter calls = COMMITTED + FAILED + OUTCOME_INVALID, COMMITTED = consumed nonces, each PREPARED at once followed by its own closing entry |
| PgtcSystem.OneOrTwoEntries | compliance/harness/system.ts:242-421 | each call appends one entry if blocked before the adapter and two otherwise |
| PgtcSystem.NonceAllowedAtMostOnce | compliance/harness/system.ts:266-272 | no nonce is ALLOWed twice |
| PgtcSystem.AllowedNonceIsSpent | compliance/harness/system.ts:266-272 | after an ALLOWed call no later call with its nonce reaches the adapter |
| PgtcSystem.RunsAdapterIff | compliance/harness/system.ts:242-421 | in a run, a signed packet that passes the checks runs its adapter if and only if no earlier call with its nonce was allowed: calls that failed or had an invalid outcome do not count |
| PgtcSystem.AdapterRunsAgainIff | compliance/harness/system.ts:375-421 | right after its adapter ran, the same packet, passing the checks, runs it again if and only if the first call did not commit |
| PgtcSystem.AdapterRunsTwice | compliance/harness/system.ts:393-404 | for every packet that can be sent there is a run of two calls, the first with an invalid outcome, that ends in two governed adapter calls |
| PgtcSystem.Harness.AppendToLedger | compliance/harness/system.ts:140-187 | appends one linked entry; the chain check inside it never throws |
| PgtcSystem.Harness.Execute | compliance/harness/system.ts:242-421 | computes the specified next state, allows exactly as specified, and keeps the invariant |
| RioEngine.StepKeepsInv | legacy/archive/server/rio.ts:100-425 | every operation keeps: one approval row exactly if decided, one receipt and one ledger row sharing a receipt hash exactly if executed, both chains intact |
| RioEngine.ExecutedIffRecorded | legacy/archive/server/rio.ts:100-425 | after any serial run from empty tables: one approval row exactly if decided, one receipt, one ledger row and one success exactly if executed, sharing the receipt hash; a denied intent is never executed; both chains intact |
| RioEngine.ApprovedBy | legacy/archive/server/rio.ts:129-168 | in a run, an intent is approved or executed only after an approval of it, by a person or a policy, that answered Done |
| RioEngine.ExecutedBy | legacy/archive/server/rio.ts:215-425 | and executed only after an execution, or an approval by policy, that answered Done |
| RioEngine.DeniedForGood | legacy/archive/server/rio.ts:172-211 | after a refusal that answered Done every later state has the intent denied, with no success, receipt or ledger row, and executing it is forbidden |
| RioEngine.ApprovedThenExecutes | legacy/archive/server/rio.ts:129-293 | a pending intent that is approved answers Done, and so does its execution |
| RioEngine.CreatedApprovedExecuted | legacy/archive/server/rio.ts:129-293 | an intent that is created, approved and executed leaves one receipt that names what was asked for, who asked and who approved |
| RioEngine.DecidedBy | legacy/archive/server/rio.ts:129-211 | the one approval row of a decided intent says what was decided and names who did, in the operation that decided it |
| RioEngine.CreatedBy | legacy/archive/server/rio.ts:100-125 | every intent says what one Create said |
| RioEngine.ExecuteSucceedsIffApproved | legacy/archive/server/rio.ts:215-293 | in any reachable state executing succeeds exactly for an approved intent |
| RioEngine.LifecycleMovesForward | legacy/archive/server/rio.ts:129-211 | a status is left only forwards; denied and executed are final; no other field of an intent changes |
| RioEngine.ForgedApprovalStopsExecution | legacy/archive/server/rio.ts:215-293 | an approval row whose signature does not check stops the execution: no receipt, no ledger row |
| RioEngine.WindowLinks | legacy/archive/server/rio.ts:615-652 | any last part of an intact ledger links |
| RioEngine.Engine.ApproveIntent | legacy/archive/server/rio.ts:129-168 | the step by which ApprovedBy and DecidedBy make an intent approved: one signed row and the status, or no change and the reason |
| RioEngine.Engine.DenyIntent | legacy/archive/server/rio.ts:172-211 | the step after which DeniedForGood holds: one signed refusal, the status and a blocked execution |
| RioEngine.Engine.ExecuteIntent | legacy/archive/server/rio.ts:215-425 | fails closed with a logged reason, or writes execution, status, receipt and ledger row |
| RioEngine.Engine.AutoApproveByPolicy | legacy/archive/server/rio.ts:991-1159 | approval by a policy followed by the same execution |
| RioEngine.Engine.AutoDenyByPolicy | legacy/archive/server/rio.ts:1165-1204 | refusal by a policy |
| RioEngine.Engine.GetLedgerChain | legacy/archive/server/rio.ts:615-652 | the last limit rows oldest first; valid exactly when they link; always so on an intact ledger |
| PatternSelector.SortIsStable | pattern-corpus/selector/select_patterns.py:135-136 | the sort falls by score and keeps the entries of every score in their old order |
| PatternSelector.ScoreIs | pattern-corpus/selector/select_patterns.py:46-92 | two for a shared word of context, two for a shared input, one per shared signal, two if a task word names the kind, times one plus the confidence |
| PatternSelector.RankingIsBestPerId | pattern-corpus/selector/select_patterns.py:111-145 | the deduped ranking falls, names each id once, and holds a best-scoring confident pattern of every id that has one |
| PatternSelector.SelectionShape | pattern-corpus/selector/select_patterns.py:147-190 | as many patterns as eligible ids up to five, distinct ids, falling scores, and always the top four of the ranking |
| PatternSelector.OverwritesAreSelection | pattern-corpus/selector/select_patterns.py:150-177 | the three overwrites of the last slot come to one closed form: missing workflow, else missing risk, else missing constraint, else the fifth |
| PatternSelector.PresentIff | pattern-corpus/selector/select_patterns.py:150-177 | workflow is selected if and only if eligible; risk and constraint under the exact condition that no later rule takes the slot |
| PatternSelector.ConstraintIsDropped | pattern-corpus/selector/select_patterns.py:150-167 | a corpus that holds a constraint and yet has none selected: the guarantee at line 150 is false |
| PatternSelector.Rank | pattern-corpus/selector/select_patterns.py:111-145 | the scoring, sorting and dedupe loops compute the ranking |
| PatternSelector.Guarantee | pattern-corpus/selector/select_patterns.py:152-177 | the loop behind one guarantee replaces the last entry by the best of a kind that is absent |
| PatternSelector.TopUp | pattern-corpus/selector/select_patterns.py:179-185 | adds ranked entries up to three and nothing to a selection that holds them all |
| PatternSelector.SelectPatterns | pattern-corpus/selector/select_patterns.py:95-190 | the whole procedure returns the closed form; topping up to three and sorting again never change it |
| EmailApproval.TokenOpensUntilExpiry | legacy/one-app/server/emailApproval.ts:142-158 | a generated token opens to its own fields up to and including its last millisecond and is expired afterwards |
| EmailApproval.TokenVerifiesIff | legacy/one-app/server/emailApproval.ts:222-272 | in any store, accepted exactly when in time, unused as far as cache and table tell, and for the expected approver |
| EmailApproval.AcceptedIff | legacy/one-app/server/emailApproval.ts:222-272 | a link goes ahead exactly if its text opens to complete fields under its own signature, in time, with a nonce neither in the cache nor on an answered row |
| EmailApproval.RefusalTells | legacy/one-app/server/emailApproval.ts:222-272 | which refusal is given, for every token: shape, encoding, missing field, signature, expiry, use, approver |
| EmailApproval.AnswerIsRecorded | legacy/one-app/server/emailApproval.ts:535-541 | an accepted link leaves its nonce last in the cache and the row of its intent APPROVED or DECLINED as the human chose |
| EmailApproval.AlteredTokenIsRejected | legacy/one-app/server/emailApproval.ts:249-254 | a signature carried over to another payload never verifies |
| EmailApproval.PersistedAtMostOnce | legacy/one-app/server/emailApproval.ts:535-541 | a token whose row is in the table is accepted at most once over any run, across pruning and restarts |
| EmailApproval.AtMostOnceIffPersisted | legacy/one-app/server/emailApproval.ts:301-317 | with the database up from then on, a token just sent is accepted at most once if and only if its insert went through, that is, its intent had no row yet |
| EmailApproval.SecondEmailApprovesAgain | legacy/one-app/server/db.ts:879-900 | a second email about one intent is mailed although its insert fails, and its link approves the intent again |
| EmailApproval.MarkedIsSuffix | legacy/one-app/server/emailApproval.ts:109-117 | marking a nonce leaves at most 10,000, the last part of the insertion order, ending with it |
| EmailApproval.CacheOverflowsIff | legacy/one-app/server/emailApproval.ts:93-107 | the limit is exceeded exactly when a full cache learns from the table that a nonce was used: that path never prunes |
| EmailApproval.ReclicksGrowCache | legacy/one-app/server/emailApproval.ts:93-107 | clicking n used links after a restart grows the cache by n, for every n |
| EmailApproval.Server.IsNonceUsedPersistent | legacy/one-app/server/emailApproval.ts:93-107 | cache, then table; warms the cache on a hit |
| EmailApproval.Server.MarkNonceUsed | legacy/one-app/server/emailApproval.ts:109-117 | the deleting loop leaves exactly the newest nine thousand once over the limit |
| EmailApproval.Server.VerifyApprovalToken | legacy/one-app/server/emailApproval.ts:222-272 | the specified verdict and cache |
| EmailApproval.Server.SendApprovalEmail | legacy/one-app/server/emailApproval.ts:281-317 | makes a token, stores its row if the table takes it, and mails it either way |
| EmailApproval.Server.Answer | legacy/one-app/server/emailApproval.ts:516-541 | the nonce steps of both handlers: verify, mark, set the status by intent |
| PolicyEvaluator.JudgedIff | governance-starter-v0.1.1/src/governance/policy_evaluator.py:37-50 | the result is the one listed verdict ranked before every other; none exactly if the list is empty or a verdict has no rank |
| PolicyEvaluator.OnlyMembershipMatters | governance-starter-v0.1.1/src/governance/policy_evaluator.py:37-50 | order and repetition of verdicts do not matter |
| PolicyEvaluator.NestedIsFlat | governance-starter-v0.1.1/src/governance/policy_evaluator.py:98-120 | folding the safeguards first changes neither the verdict nor the error |
| PolicyEvaluator.RankIsLast | governance-starter-v0.1.1/src/governance/policy_evaluator.py:32-34 | a verdict listed twice has its last place |
| PolicyEvaluator.PolicyOrderIsIrrelevant | governance-starter-v0.1.1/src/governance/policy_evaluator.py:103-107 | the same policies in another order give the same verdict |
| PolicyEvaluator.VerdictIsStrictest | governance-starter-v0.1.1/src/governance/policy_evaluator.py:92-120 | the verdict is the strictest that any safeguard or matching policy has; if nobody speaks, the external default or ALLOW_INTERNAL |
| PolicyEvaluator.VerdictMeans | governance-starter-v0.1.1/src/governance/policy_evaluator.py:263-286 | what each verdict means: a verdict that waits for a human is executable, satisfied and approved exactly if the request holds an explicit_human_approval that is not empty |
| PolicyEvaluator.OutcomeTells | governance-starter-v0.1.1/src/governance/policy_evaluator.py:92-136 | exactly which policies and reasons are listed, when a receipt is required and when the result is advice |
| PolicyEvaluator.FindingIff | governance-starter-v0.1.1/src/governance/policy_evaluator.py:138-186 | exactly when each safeguard speaks, and with which verdict |
| PolicyEvaluator.MatchesIff | governance-starter-v0.1.1/src/governance/policy_evaluator.py:188-243 | exactly when a policy matches: its keys, repository, path, branch, token, cost and backend |
| PolicyEvaluator.ExternalIff | governance-starter-v0.1.1/src/governance/policy_evaluator.py:245-258 | a consequence level, one of five tools or one of four actions makes a request external |
| PolicyEvaluator.AddingNeverLoosens | governance-starter-v0.1.1/src/governance/policy_evaluator.py:103-107 | once a safeguard or a policy speaks, adding policies never loosens the verdict |
| PolicyEvaluator.AddingNeverLoosensIff | governance-starter-v0.1.1/src/governance/policy_evaluator.py:109-118 | exactly when: some candidate exists, or the fallback is already the loosest verdict of the order |
| PolicyEvaluator.DeniedActionsIff | governance-starter-v0.1.1/src/governance/policy_evaluator.py:161-163 | for a given order, no policies, defaults or approval make a deny-by-default action executable if and only if DENY ranks first or has no rank |
| PolicyEvaluator.UnapprovedIff | governance-starter-v0.1.1/src/governance/policy_evaluator.py:165-178 | for a given order, no policies or defaults make a request without approval executable, if it rests on a model's words, a confidence or an old receipt and reaches outside, if and only if nothing but DENY ranks before REQUIRE_HUMAN_APPROVAL |
| PolicyEvaluator.PolicyEvaluator.ApplySafeguards | governance-starter-v0.1.1/src/governance/policy_evaluator.py:138-186 | the findings in order, and their most restrictive verdict if there is one |
| PolicyEvaluator.PolicyEvaluator.MatchPolicies | governance-starter-v0.1.1/src/governance/policy_evaluator.py:103-107 | the loop appends the verdicts and ids of exactly the matching policies |
| PolicyEvaluator.PolicyEvaluator.Evaluate | governance-starter-v0.1.1/src/governance/policy_evaluator.py:92-136 | the two folds give the answer defined over the one flat list of candidates |
| ActionStore.CountersAreRecords | legacy/one-app/server/actionStore.ts:100-250 | after any run: pending_actions = pending + executing + completed records, failed_actions_count = failed records, version = state writes |
| ActionStore.PendingIsOpenWorkIff | legacy/one-app/server/actionStore.ts:150-180 | pending_actions is the number of open actions exactly while nothing has been completed |
| ActionStore.ClampNeverFires | legacy/one-app/server/actionStore.ts:214-250 | the max(0, ...) clamps never change anything |
| ActionStore.ClaimedAtMostOnce | legacy/one-app/server/actionStore.ts:136-144 | each action is handed out at most once |
| ActionStore.StartedIffClaimed | legacy/one-app/server/actionStore.ts:136-226 | in any run an action is executing, completed or failed exactly if it was claimed, once; a pending or cancelled one never was |
| ActionStore.StepKeepsInv | legacy/one-app/server/continuity.ts:111-131 | every operation keeps counters and agents in step with the records, and a write raises the version by one |
| ActionStore.Files.WriteState | legacy/one-app/server/continuity.ts:111-131 | merges over the current record: one version up, the agent added once |
| ActionStore.Files.CreateAction | legacy/one-app/server/actionStore.ts:100-129 | a new pending record and one more counted |
| ActionStore.Files.ClaimAction | legacy/one-app/server/actionStore.ts:136-144 | only a pending action is claimed, and the state file is left alone |
| ActionStore.Files.CompleteAction | legacy/one-app/server/actionStore.ts:150-180 | only an executing action is completed, and no counter changes |
| ActionStore.Files.FailAction | legacy/one-app/server/actionStore.ts:186-226 | only an executing action fails; one less pending, one more failed |
| ActionStore.Files.CancelAction | legacy/one-app/server/actionStore.ts:232-250 | only a pending action is cancelled; one less pending |
| Orchestrator.ExecutedAsApproved | legacy/server/orchestrator.py:115-198 | at any point of any run: one receipt exactly if executed; what reached the adapter had the tool, arguments and policy that somebody other than the proposer approved, in time and at most as often as allowed; the token is gone |
| Orchestrator.PassedMeansApproved | legacy/server/orchestrator.py:40-198 | from the operations: whatever reached an adapter was proposed by somebody and approved by somebody else in an Approve that answered Done, with the proposed tool and the arguments proposed or last put in their place before that, in time and under that policy |
| Orchestrator.ProposedApprovedExecuted | legacy/server/orchestrator.py:40-198 | an intent that is proposed, approved by somebody else under a policy that allows an execution, and executed in time reaches the adapter as it was proposed and gets its receipt |
| Orchestrator.ExecutedMeansPassed | legacy/server/orchestrator.py:115-198 | an executed intent did reach its adapter |
| Orchestrator.ExecuteAnswers | legacy/server/orchestrator.py:115-198 | what each answer of execute leaves: adapter input, receipt, status and token |
| Orchestrator.ApproveAnswers | legacy/server/orchestrator.py:74-112 | when approve gives which answer, and what Done leaves |
| Orchestrator.FinalStaysFinal | legacy/server/orchestrator.py:115-198 | executed and denied are final, and whoever presents an executed intent's token later is refused |
| Orchestrator.StepMoves | legacy/server/orchestrator.py:40-198 | pending to approved to executed or denied, and no other change of status |
| Orchestrator.GatePassesIff | legacy/server/security/tokens.py:284-373 | an approved intent passes exactly if its arguments are still the approved ones, the policy is unchanged, it is in time and has executions left |
| Orchestrator.RaisingUsesUpApproval | legacy/server/orchestrator.py:139-193 | an adapter that raises uses up a single-execution approval: no receipt, and the next attempt is denied for good |
| Orchestrator.ExpiredAtIssueIff | legacy/server/security/tokens.py:238-240 | asking for nought minutes gives the policy's expiry; a token is stale at issue only for a negative request or a policy expiry that is not positive |
| Orchestrator.Runtime.ApproveIntent | legacy/server/orchestrator.py:74-112 | refuses an unknown, decided or own intent; else issues a token and links it |
| Orchestrator.Runtime.ValidateToken | legacy/server/security/tokens.py:284-373 | eight checks on whatever token is presented; a pass counts up the stored one with its id and nothing else changes |
| Orchestrator.Runtime.ExecuteIntent | legacy/server/orchestrator.py:115-198 | the gate, the adapter's three outcomes, then receipt, burn and status |
| DeviceSync.PageContinues | legacy/archive/server/device-sync.ts:141-176 | a device that holds a first part of the ledger gets exactly the slice after it |
| DeviceSync.UnknownHashRestarts | legacy/archive/server/device-sync.ts:161-168 | a hash the ledger does not have starts over from the first row |
| DeviceSync.HoldsPrefix | legacy/archive/server/device-sync.ts:141-176 | while rows are appended between calls, the device always holds a first part of the ledger without gap or repetition |
| DeviceSync.RebuildsIn | legacy/archive/server/device-sync.ts:141-176 | on a still ledger the whole of it is there after exactly ceil(n / limit) calls |
| DeviceSync.EntryCountIff | legacy/archive/server/device-sync.ts:189-196 | the reported entryCount is the number of rows exactly when the ids run from one without a gap |

## Left out

Of the modelled components:

- Json: lone surrogates, undefined, non-finite numbers and functions; a number is the text the runtime prints for it. The two printers, in controlPlane.ts and db.ts, are one function here.
- SHA-256, HMAC, Ed25519 and ECDSA themselves, base64, UUIDs and nanoid: parameters.
- Verification and Gate: a missing text field of an envelope is the empty text, since both are refused alike; the detail strings of gate checks.
- ClosedLoop: the learning analysis, policy recommendations and replay of past decisions (controlPlane.ts:668-981), which only read.
- ExecutionGate: SQLite itself and the text that json.dumps gives a row (a function of the row here); a timestamp that is not a text, which raises before anything is written; the audit log view and the receipt verifier.
- Authority: callers that write to a token object they hold; the root authority registration, the genesis record and the one-rule checklist.
- ReceiptChain: downloading and parsing the Drive files; a file that fails to load is a missing one.
- PgtcSystem: the rules of TES and of the gate, whose modules are not part of this model (their verdicts are inputs); the payloads of entries other than PREPARED; the reset and configuration helpers.
- RioEngine: the risk score, the analytics and the suggested policies; the rows are abstract in the fields that no operation reads. That each row carries the hash computed when it was written is about the writer: the tables do not keep every hashed field.
- PatternSelector: splitting texts into tokens, loading the corpus file, and rounding; scores are real numbers.
- EmailApproval: mail texts, result pages, the gateway calls that follow an accepted link, and overlapping requests. A payload that is the JSON value null raises in the source and is a bad encoding here; both refuse.
- PolicyEvaluator: reading the YAML file; a request value of a type that cannot be hashed raises in the source and matches nothing here.
- ActionStore: a state file that cannot be written or parsed, listing actions, and the texts of notes.
- Orchestrator: an adapter that calls execute again while it runs; the denial-reason strings; signing keys that change between issue and check.
- DeviceSync: key backups, and the ledger health check, which is another component.

Of the repository:

- The gateway and enforcement-core sources, HTTP and tRPC routes, Gmail, Telegram, Drive, LLM calls and connectors: I/O around services that are not part of this model.
- Regex scanners (email firewall, markdown, pattern word lists), report writers, demos, pages and schemas: their content is lists and texts.
- Small classifiers, delegation rules and bounded history windows: they would only add easy members.
- approvalSystem.ts: its cooldown store is not part of this model.
