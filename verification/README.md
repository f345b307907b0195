# A verified model of the payment facilitator

The facilitator accepts a signed EIP-3009 authorization once (`/verify`) and turns it into one on-chain transfer with
one settlement and one receipt (`/settle`). Its safety does not rest on any single function: callers race through Redis
locks without owners, PostgreSQL unique constraints, retried jobs and two RPC endpoints, and every `await` can fail
before or after its command took effect. This project models those protocols as state machines over their awaits,
proves what holds in every reachable state, and ties the machines to programs that have the shape of the source.

`dafny verify dfyconfig.toml` checks the whole project.

## How it is organised

Each protocol comes in three layers.

1. A **machine** (`SettlePayment`, `SettleService`, `VerifyPayment`, `VerifyService`, `Breaker`, `RpcBreaker`,
   `RateLimit`, `DeviceAuth`): datatypes for the stores and for each caller's position, and a total `Next` over events.
   An event is one await of one caller, with a reply that is *delivered*, *dropped* (no effect, the await threw) or
   *lost* (took effect, the await threw), or a crash, a key expiry, a stranger's transaction, a block, a tick of the
   clock. An event that is not enabled changes nothing, so a run is any sequence of events and "for all runs" needs no
   side conditions.
2. **Theorems** over all runs: invariants with their inductive proofs, agreement, accounting, exact conditions for the
   properties that fail, and runs that show the failures are real. The modules named `...Answers` say what a call
   answers without the machine's own functions: a fold over the run collects what the call was told, read off the stores
   before and after each step, and the answer is proved to be the one that belongs to it; beside them stand the runs in
   which everything works.
3. A **program** (`SettleProgram`, `SettleServiceProgram`, `WorkerProgram`, `VerifyProgram`, `VerifyServiceProgram`,
   `BreakerProgram`, `RateLimitProgram`, and the classes inside `RpcBreaker` and `DeviceAuth`): classes whose methods
   have the source's control flow (early returns, try, catch, finally, retry loops) and reassign the stores in place.
   Between any two awaits a schedule lets everybody else act. Each method is proved to leave the stores exactly as the
   machine does, so the theorems hold of the programs. History fields (who set a key, which commits went
   unacknowledged, what was counted when) are in the state only to state properties; no control flow reads them.

Below them: `Chain` (EIP-3009 `transferWithAuthorization` over a mempool, as its Specification section requires),
`Hex`, `Registry`, `FeeEngine`, `Billing`; above them `EndToEnd`, which runs verifyPayment, settlePayment and the chain
together.

## What turned out to differ from the documentation

The model follows the code in each case and proves what the code does.

- `src/settlement/settle-payment.ts:220` tells the caller "No funds were moved". `FundsMoveExactly` says when the money
  of a finished call moves, now or ever: when one of its broadcasts succeeded or can still succeed. A call whose every
  broadcast was heard to revert, or took no effect, has moved nothing (`FailedCallMovedNothing`). Every other way into
  the catch block may have paid: a lost broadcast reply, a wait that threw, a dropped confirmation
  (`FailureMayFollowPayment`) and a refused one (`RefusedConfirmFollowsPayment`).
- settlePayment deletes its lock twice on failure (`:217`, `:225`). `SettleLocks.MutexExactly` says which steps break
  mutual exclusion, and in the run of `TwoInside` the second DEL lets two callers inside at once, with no expiry and no
  crash. In runSettle the confirmation worker deletes the same key
  (`src/infrastructure/workers/confirm-settlement.worker.ts:193`): `SettleServiceTheorems.MutexExactly`.
- A confirmed settlement of settlePayment can become failed, but only when its own confirming transaction committed
  and the acknowledgement was lost (`FinalStatusStep`, `LostAckUndoesConfirmation`). In runSettle the lock DEL at
  `src/application/settle.service.ts:195` is inside the try block, so a failing DEL does the same
  (`FailurePathOnConfirmed`, `FailedDeleteUndoes`).
- runSettle reads "already settled?" before it takes the lock and not again under it. A request gets a second row
  exactly when a caller that holds the lock creates one although there is one (`OneRowExactly`); in all other runs it is
  submitted at most once (`SubmitsOnceUnlessCreatedAgain`), and `OverlapSubmitsTwice` shows what happens otherwise.
- settlePayment always submits `validAfter` 0, so what reaches the chain is the signed authorization if and only if the
  signed value is 0 (`ConfirmedCarriesCheckedProof`).
- runVerify and runSettle say they never throw. They do exactly when one of the awaits outside their try blocks fails:
  `SettleServiceReplies.ThrowsExactly` and `VerifyServiceTheorems.ThrowsExactly` list them, `FirstReadThrows` and
  `ClaimThrows` are runs.
- In verifyPayment claimNonce and claimSignatureHash stand outside every try block
  (`src/application/verify-payment.ts:121` and `:130`). When the second throws, the nonce key stays although every
  release succeeds: `FailureLeavesExactly` is the exact condition, `ThrownClaimLeaves` the run.
- runVerify leaves keys behind although Redis serves it in exactly two cases (`FinishedCallsLeave`). A call of
  `claimNonceRedis` that loses the nonce and wins the signature keeps the signature key
  (`src/protocol/anti-replay.ts:84`, `ClaimOutcome`). And the durable check and the signature check stand outside every
  try block (`src/application/verify.service.ts:104` and `:112`): when either throws, both keys stay without a row
  (`ThrownCheckLeaves`).
- A re-run confirmation job leaves a decided settlement alone unless all five of its reads throw; then the failed
  handler marks even a confirmed one failed (`RerunExactly`, `RerunOverwrites`).
- The worker writes without looking at the status again. A job that read an undecided row on its last attempt and then
  times out marks failed what a call confirmed meanwhile (`LastAttemptOverwrites`); a job with another hash changes the
  answers of later calls (`JobChangesTheAnswer`). `ConfirmedRowChangesExactly` lists every such step; the receipt in the
  answers never changes (`OneReceiptAnswered`). A job that outlives its failed call can confirm a second row of the
  request (`JobConfirmsSecondRow`); `OneConfirmedExactly` says when a request has one confirmed row at most.
- Both circuit breakers promise one probe in half-open. Their code lets any number through
  (`Breaker.HalfOpenAdmitsAny`, `ManyProbes`, `RpcBreaker.HalfOpenAdmitsAny`), and late completions count in whatever
  state they find. The retry's jitter is one-sided, not plus or minus 50 ms.
- The rate limiter's INCR and EXPIRE are two commands. The key never expires exactly when one of three steps happens in
  between or instead (`ImmortalExactly`, `ImmortalRuns`); then the seller can be blocked for ever (`BlockedForEver`).
- User codes are looked up without regard to expiry, and only the first device with a code can be approved
  (`ActivatesExactly`): an expired entry can hide a live one (`ExpiredCodeShadows`).
- settlePayment configures neither free tier nor premium tiers (`FeesAtOneRate`), although its comment says it does.
- `src/settlement/settle-payment.ts` and `src/application/verify-payment.ts` use fields that `prisma/schema.prisma`
  does not declare (seller, buyer, a settlement's receipt), and verifyPayment stores the 132-character signature text in
  a column declared for 128 (`prisma/schema.prisma:120`), which a database that enforces the declaration would refuse.
  The model takes the fields the code uses, the unique constraints the schema declares, and no length limits.

## Model

| member | source | states |
|---|---|---|
| `Chain.AuthorizationSpentOnce` | src/settlement/on-chain.ts:82-97 | EIP-3009: one holder's nonce moves a token at most once, whoever broadcasts it and however often |
| `Chain.MineKeeps` | src/settlement/on-chain.ts:82-116 | a block keeps `used` equal to the set of authorizations that succeeded, and never changes a mined status |
| `Chain.MovedWithout` | src/settlement/on-chain.ts:82-116 | striking one successful transfer from the log removes exactly its value |
| `Chain.MinesExactly` | src/settlement/on-chain.ts:82-116 | a block decides every transaction it takes: it succeeds if and only if the contract accepts it, strictly inside its window, and no transfer of the same token by the same holder under the same nonce succeeded before; otherwise it reverts, and nothing else changes |
| `Chain.SplitSignatureRoundTrip` | src/settlement/on-chain.ts:37-43 | for 65-byte signatures r, s and v are its bytes in order, nothing lost |
| `Chain.SplitSignatureIgnoresCase` | src/crypto/signature-verifier.ts:69-71 | the lower-cased signature that /verify stores splits into the same r, s, v as the one that was signed |
| `Hex.ToBytesIgnoresCase` | src/infrastructure/anti-replay.ts:12-27 | lower-casing a key never changes the bytes it denotes |
| `Hex.CaseIgnoredExactly` | src/infrastructure/anti-replay.ts:12-27 | two texts agree after lower-casing, and after upper-casing, if and only if they differ at most in the case of letters |
| `Hex.CasesOf` | src/infrastructure/anti-replay.ts:12-27 | lower- and upper-casing change at most the case of letters and leave no letter of the other case |
| `Hex.ToBytesOfEncode` | src/settlement/on-chain.ts:37-43 | every byte string comes back from its hexadecimal literal |
| `SettlePayment.RunKeeps` | src/settlement/settle-payment.ts:58-227 | in every run: rows, receipts, chain and every caller's position fit together; each row has at most one writer |
| `SettleTheorems.Agreement` | src/settlement/settle-payment.ts:78-207 | any two successful answers for one request, fresh or idempotent, carry the same settlement, hash and receipt, and that transaction succeeded with the request's own arguments |
| `SettleTheorems.ConfirmedMeansReceipt` | src/settlement/settle-payment.ts:161-196 | at most one confirmed row per request, always with the receipt that names it; conversely a receipt has its confirmed row if and only if it was not undone after a lost acknowledgement |
| `SettleTheorems.OneReceiptPerConfirmed` | prisma/schema.prisma:174 | without lost acknowledgements, receipts and confirmed settlements are the same requests |
| `SettleTheorems.FinalStatusStep` | src/settlement/settle-payment.ts:208-227 | a row that is no longer pending changes in one step if and only if its own caller runs the failure path after an unheard commit |
| `SettleTheorems.FinalStatus` | src/settlement/settle-payment.ts:113-227 | over whole runs: pending to confirmed or pending to failed, then never again, except for a lost acknowledgement |
| `SettleTheorems.LaterCallsRepeatTheSettlement` | src/settlement/settle-payment.ts:78-98 | idempotence over every interleaving: once a confirmation was heard, its row stays confirmed, and every call begun later repeats it or fails to ask; none locks, writes a row or submits again |
| `SettleTheorems.PaidOnce` | src/settlement/on-chain.ts:63-124 | however often failover, other callers or strangers broadcast a request's authorization, one transaction at most succeeds for it |
| `SettleAnswers.AnswersExactly` | src/settlement/settle-payment.ts:58-227 | over all runs, a call that did not crash answers with exactly what it was told last: verification_required, the confirmed row it found, the lock it found taken, its own receipt, settlement_failed after both commands of the catch block, or the store error |
| `SettleAnswers.FreshAnswerExactly` | src/settlement/settle-payment.ts:165-207 | a call that did not crash answers with a fresh settlement if and only if an answered await of its own wrote its request's receipt; the answer is then that receipt's settlement, hash and id |
| `SettleAnswers.PaidAsRequested` | src/settlement/settle-payment.ts:136-148 | behind every settled answer stands a successful transaction of the configured asset from buyer to seller, with the amount, the expiry in whole seconds, validAfter 0, and the first accepted verification's nonce and signature |
| `SettleAnswers.EveryEndpointTried` | src/settlement/on-chain.ts:63-124 | over all runs, a call that answers settlement_failed was failed once by every endpoint, unless it heard of a success or cannot be submitted; a fresh settlement heard of a success before the last endpoint failed it |
| `SettleAnswers.ReferralCredited` | src/settlement/settle-payment.ts:114-159 | a fresh settlement's row carries the request and the referral code its call began with, and its fee and developer share are the configured rates, each rounded down |
| `SettleSuccess.FailoverSettles` | src/settlement/on-chain.ts:63-124 | for every submittable request with a deadline of at least two seconds and every k below the number of endpoints: the run of one call in which the first k endpoints refuse and all else is answered ends settled, row confirmed and charged, receipt written, transfer made, lock gone |
| `SettleSuccess.SoloSettles` | src/settlement/settle-payment.ts:58-227 | with at least one endpoint, the run in which every await is answered ends in a fresh settlement |
| `SettleFailures.FundsMoveExactly` | src/settlement/settle-payment.ts:208-222 | the money of a finished call moves, now or in some continuation, if and only if one of its broadcasts succeeded or waits in the mempool with its key unspent and some of its window left |
| `SettleFailures.FailedCallMovedNothing` | src/settlement/settle-payment.ts:219-222 | a call that answered settlement_failed, and whose every broadcast was heard to revert or took no effect, has moved nothing and never will, in any continuation |
| `SettleFailures.SpentByOthersOnly` | src/settlement/on-chain.ts:63-124 | after such a call its request's authorization is spent if and only if a transaction not its own spent it |
| `SettleFailures.FailureMayFollowPayment` | src/settlement/on-chain.ts:82-121 | for every submittable request with a deadline of at least two seconds, any number of endpoints and each of three ways (broadcast reply lost, wait threw, confirmation dropped), a run of one call in which only the await at step i fails, in that way, and after a failed broadcast the remaining endpoints refuse; it answers settlement_failed and its own transaction moves the money |
| `SettleFailures.RefusedConfirmFollowsPayment` | src/settlement/settle-payment.ts:165-215 | the fourth way, for any two such requests with different authorizations: a run in which every await is answered, the call has heard its transfer succeed, its confirming transaction at step i is refused because another receipt has its id, and the answer is settlement_failed |
| `SettleFailures.NeverPaidWithoutWindow` | src/settlement/settle-payment.ts:140-141 | a request with an earlier deadline is never paid in any run |
| `SettleFailures.LostAckUndoesConfirmation` | src/settlement/settle-payment.ts:165-215 | the exception in ConfirmedMeansReceipt and FinalStatus occurs for every submittable request with a deadline of at least two seconds and any number of endpoints: a run in which only the acknowledgement of the confirming transaction is lost, and a paid, receipted row ends failed |
| `SettleLocks.MutexExactly` | src/settlement/settle-payment.ts:100-110 | a step breaks mutual exclusion if and only if it takes the lock from its holder: expiry, a first DEL that deletes unacknowledged, or a second DEL that finds another caller's lock |
| `SettleLocks.TwoInside` | src/settlement/settle-payment.ts:208-226 | for every submittable request and any number of endpoints, a run without expiry or crash in which the second DEL of a failed call, at step i, takes the lock of the call inside, and ends with two callers between SET NX and DEL |
| `SettleLocks.CrashKeepsLock` | src/settlement/settle-payment.ts:100-110 | for every submittable request, a run in which a crashed call leaves its row pending and its lock held, the next call is turned away, and once the lock has expired another gets in |
| `SettleProgram.Facilitator.SettlePayment` | src/settlement/settle-payment.ts:47-227 | settlePayment, interleaved with everybody else, ends as a run of the protocol; it answers what the run told it, a fresh settlement if and only if its own confirming transaction wrote the receipt; a successful answer is the request's receipt, backed by a transfer that succeeded with the request's arguments |
| `SettleProgram.Facilitator.TryBlock` | src/settlement/settle-payment.ts:125-222 | submit, then confirm with a receipt; the result is settled if and only if the call wrote the receipt, and anything that throws goes through the catch block |
| `SettleProgram.Facilitator.CatchBlock` | src/settlement/settle-payment.ts:208-222 | mark failed, delete the lock, throw; an error of either replaces the error thrown |
| `SettleProgram.Facilitator.SubmitOnChain` | src/settlement/on-chain.ts:63-124 | the failover loop: the first endpoint whose transaction succeeds, or an exception after the last |
| `SettleProgram.Facilitator.ConfirmWithReceipt` | src/settlement/settle-payment.ts:165-196 | row and receipt are written together or not at all, and not at all when a unique constraint is violated |
| `Billing.SelectedAtMostMoved` | src/settlement/referral-service.ts:23-32 | if every confirmed row points at its own successful transfer, any selection of them sums to at most what moved |
| `Billing.ConservationOfMoney` | src/settlement/referral-service.ts:23-32 | in every reachable state the gross volume over any selection of confirmed settlements is at most the value moved by the transfers that settle calls broadcast, which is at most what moved on chain |
| `Billing.ReferralTotals` | src/settlement/referral-service.ts:19-45 | developer share <= fee <= gross <= moved by the settle calls' own transfers, and n >= 1 settlements' summed fee is at most n - 1 units below the fee on the summed gross |
| `Billing.TotalsNest` | src/settlement/referral-service.ts:32-34 | for any charged settlements total developer share <= total fee <= total gross |
| `Billing.FeesAtOneRate` | src/settlement/settle-payment.ts:150-159 | every settlement of settlePayment pays the platform rate |
| `Billing.MonthsPartition` | src/settlement/referral-service.ts:47-65 | adjacent months share no settlement and lose none |
| `Billing.FindManyMembers` | src/settlement/referral-service.ts:23-30 | the filtered query holds exactly the matching rows |
| `Billing.StatsCountExactly` | src/settlement/referral-service.ts:19-45 | the statistics of a code count exactly the confirmed settlements that carry it, each with its amount, fee and developer share; rows of other codes change nothing |
| `Billing.VolumeCountsExactly` | src/settlement/referral-service.ts:47-65 | a seller's monthly volume counts exactly the amounts of the confirmed settlements of its requests created in the month |
| `FeeEngine.ComputeIsBounded` | src/settlement/fee-engine.ts:55-97 | developer share <= fee <= gross, and fee plus net is gross, for every configuration in range |
| `FeeEngine.DeveloperShareOf` | src/settlement/fee-engine.ts:61-86 | with a referral and outside the free tier the developer earns the exact product's floor, short by at most one unit; otherwise nothing |
| `FeeEngine.FindTierIsFirst` | src/settlement/fee-engine.ts:99-110 | the rate is that of the first tier that applies, and the platform rate exactly when none does |
| `FeeEngine.ChargesExactly` | src/settlement/fee-engine.ts:55-110 | for every input: nothing below a configured free tier; otherwise the rate of the first unexpired tier of the seller, or the platform's, rounded down, and of that the developer's share for a non-empty referral code, rounded down |
| `FeeEngine.NestedFloor` | src/settlement/fee-engine.ts:80-86 | the doubly floored developer share is within one unit of the singly floored one |
| `FeeEngine.AggregateRounding` | src/settlement/fee-engine.ts:80-81 | n payments charged one by one cost at most n - 1 units less than their total would |
| `FeeEngine.AggregateRoundingIsTight` | src/settlement/fee-engine.ts:80-81 | that bound is reached for every n up to 10000 |
| `FeeEngine.FreeIsPrefix` | src/settlement/fee-engine.ts:61-75 | the free payments of a month form a prefix of it |
| `FeeEngine.FreeTierOverMonth` | src/settlement/fee-engine.ts:61-97 | the free total is less than the allowance plus the last free payment; every other payment is charged its rate, and fee plus net is gross |
| `VerifyPayment.RunKeeps` | src/application/verify-payment.ts:118-235 | in every run: stored requests are records of fully checked proofs, found under their own nonce and signature, and correspond one for one to the calls that committed them |
| `VerifyPayment.HeldStep` | src/application/verify-payment.ts:118-170 | after any await, heard or not, a call holds exactly the keys its command left it |
| `VerifyAnswers.TurnedAwayExactly` | src/application/verify-payment.ts:60-116 | a proof is turned away before the first await with each code exactly under that code's condition, written out on the body, and otherwise goes on to its first claim |
| `VerifyAnswers.GoodProofIsAccepted` | src/application/verify-payment.ts:60-235 | in every state: a well-formed, unexpired proof to the recipient asked for, of at least the amount asked for, on a configured asset, signed by the payer, with a representable expiry and everything unused, is accepted when its four awaits are answered, and its record is stored |
| `VerifyAnswers.AnswersExactly` | src/application/verify-payment.ts:118-235 | over all runs, a finished call's result is the one that belongs to what it was told last: accepted if and only if an answered await stored its row, duplicate_payment, invalid_signature, internal_error, or cut short |
| `VerifyTheorems.AcceptedOnce` | src/application/verify-payment.ts:118-139 | no two accepted calls share a nonce or a signature, whatever expires, crashes or is lost |
| `VerifyTheorems.AcceptedIsChecked` | src/application/verify-payment.ts:94-116 | an accepted proof is unexpired, paid to the requested recipient up to case, worth the required amount, signed by the payer, and recorded as such |
| `VerifyTheorems.ExactKeyAccounting` | src/application/verify-payment.ts:118-235 | without expiry the live keys are exactly the held ones and no two calls hold one key |
| `VerifyTheorems.OnlyOwnerDeletes` | src/infrastructure/anti-replay.ts:38-52 | a key is deleted only by the call that set it |
| `VerifyTheorems.LeavesExactly` | src/application/verify-payment.ts:118-235 | over every run without expiry, the keys a finished call leaves are those its last await and that await's reply determine, case by case |
| `VerifyTheorems.LeavesRowExactly` | src/application/verify-payment.ts:179-208 | a call leaves a row if and only if its persisting transaction took effect, heard of or not |
| `VerifyTheorems.FailureLeavesExactly` | src/application/verify-payment.ts:118-235 | if releases succeed and nothing crashes or expires, a finished call leaves a key if and only if it was accepted or one of its two claims threw with a key set |
| `VerifyTheorems.ThrownClaimLeaves` | src/application/verify-payment.ts:130-130 | for every proof that passes the checks, the run in which nothing crashes or expires, no release fails, claimSignatureHash throws at the last step and the nonce key stays |
| `VerifyTheorems.WhatAThrowLeaves` | src/application/verify-payment.ts:229-235 | with any failures: what a finished call leaves is exactly what its outcome records |
| `VerifyProgram.Verifier.VerifyPayment` | src/application/verify-payment.ts:53-236 | verifyPayment, interleaved with everybody else, leaves the stores as a run of the protocol and answers what that run told it; an accepted request is the record of exactly the checked body |
| `VerifyProgram.Verifier.Claim` | src/infrastructure/anti-replay.ts:12-27 | SET NX: true exactly when the key was absent |
| `VerifyProgram.Verifier.Release` | src/infrastructure/anti-replay.ts:38-52 | DEL of the call's own key |
| `VerifyProgram.Verifier.Rollback` | src/application/verify-payment.ts:151-169 | nonce, then signature, then the error; a Redis error ends the call at once |
| `VerifyProgram.Verifier.PersistAccepted` | src/application/verify-payment.ts:179-208 | request and accepted verification together or neither |
| `EndToEnd.RecordCarries` | src/settlement/settle-payment.ts:136-148 | what settlePayment submits for the record of a checked proof has the same payer, payee, amount, deadline, nonce, token and signature bytes |
| `EndToEnd.ConfirmedCarriesCheckedProof` | src/application/verify-payment.ts:180-205 | in every reachable state of the whole, a confirmed settlement's transaction succeeded and carried the proof an accepted verification checked; it is the signed authorization if and only if the signed validAfter is 0 |
| `EndToEnd.ConfirmedProofsDiffer` | prisma/schema.prisma:120-121 | two confirmed settlements never rest on one signature or nonce text, and their transactions spend different authorizations |
| `EndToEnd.SettleSurvivesNewRequests` | src/application/verify-payment.ts:180-205 | new payment requests disturb no settlement in progress |
| `VerifyServiceTheorems.AcceptedOnce` | src/application/verify.service.ts:132-148 | at most one accepted response per nonce and signature hash even if Redis forgets or callers crash, and it passed every check |
| `VerifyServiceTheorems.AcceptedIsChecked` | src/application/verify.service.ts:46-90 | an accepted response is for a valid signature on an authorization inside its validity window, to the requested recipient, of at least the required amount, on a configured asset |
| `VerifyServiceAnswers.RunStores` | src/application/verify.service.ts:186-239 | in every run the payment request of every verification row, accepted or rejected, is stored and stays, the unique indexes hold exactly the rows' values, every row is its own call's, and every answer invalid_signature has its rejected row |
| `VerifyServiceAnswers.TurnedAwayExactly` | src/application/verify.service.ts:46-90 | a body is turned away before the first await with each code exactly under that code's condition, written out, and otherwise goes on to its claim |
| `VerifyServiceAnswers.GoodBodyIsAccepted` | src/application/verify.service.ts:46-164 | in every state: a body on a configured asset, inside its window, to the recipient asked for, of at least the amount asked for, validly signed and with everything unused, is accepted when every await is answered; request and row are stored |
| `VerifyServiceAnswers.AnswersExactly` | src/application/verify.service.ts:92-148 | over all runs, a finished call's result is the one that belongs to what it was told last: the key taken, the nonce first, the row found and what it has in common, the signature, the row that was stored or not, a throw or a crash |
| `VerifyServiceTheorems.LaterCallsNeverReachTheSignature` | src/protocol/anti-replay.ts:114-131 | once a row, accepted or rejected, holds a nonce or signature hash, every call begun later with either ends before the signature check |
| `VerifyServiceTheorems.ClaimOwnership` | src/protocol/anti-replay.ts:72-108 | without expiry, calls that have claimed and not begun release share neither value, and every live key has its owner |
| `VerifyServiceTheorems.RunKeysExact` | src/protocol/anti-replay.ts:72-108 | the live keys are exactly those some call set and has not deleted, each with one owner |
| `VerifyServiceTheorems.OnlyOwnerDeletes` | src/protocol/anti-replay.ts:99-108 | a key is deleted only by the call that set it and holds it |
| `VerifyServiceTheorems.ClaimOutcome` | src/protocol/anti-replay.ts:78-91 | the two parallel SETs give the same outcome in either order; a call that loses the nonce and wins the signature keeps the signature key |
| `VerifyServiceTheorems.FinishedCallsLeave` | src/application/verify.service.ts:92-148 | for a finished, unaccepted call that did not crash and whose Redis commands were answered, whatever else failed, in every run without expiry: it owns a live key if and only if its durable check or signature check threw (both keys), or it lost the nonce race and won the signature (the signature key) |
| `VerifyServiceTheorems.FinishedCallsRelease` | src/application/verify.service.ts:92-148 | such a call leaves a key if and only if one of those two things happened; it lost the race exactly when it answers nonce_used and records the signature key as kept |
| `VerifyServiceTheorems.ThrownCheckLeaves` | src/application/verify.service.ts:104-117 | for every body that passes the checks, and either check, the run in which every Redis command is answered, the check throws, and both keys stay without a row |
| `VerifyServiceTheorems.ThrowsExactly` | src/application/verify.service.ts:92-148 | a finished runVerify threw if and only if one of its awaits outside the try block failed: either SET, either DEL, the DEL that undoes the nonce, the durable check, the signature check, or the upsert or create of a rejected row, which a unique constraint may refuse |
| `VerifyServiceTheorems.ClaimThrows` | src/protocol/anti-replay.ts:78-82 | for every body that passes the checks, a run in which runVerify throws |
| `VerifyServiceProgram.VerifyStore.RunVerify` | src/application/verify.service.ts:40-164 | runVerify, interleaved with everybody else, is a run of the machine and answers what it was told; an accepted answer names its own row for a body that passed every check, its request is stored, a rejected signature is recorded, and it throws exactly when one of the listed awaits failed |
| `VerifyServiceProgram.VerifyStore.ClaimNonceRedis` | src/protocol/anti-replay.ts:72-92 | nonce decides first, then signature, undoing the nonce when only the signature was taken |
| `VerifyServiceProgram.VerifyStore.ReleaseNonceRedis` | src/protocol/anti-replay.ts:99-108 | both DELs, in either order; it throws when either does |
| `VerifyServiceProgram.VerifyStore.CheckReplayPostgres` | src/protocol/anti-replay.ts:114-131 | a duplicate exactly when the nonce or the signature hash is in the table; when two rows match, the reason is that of the one the database returns |
| `VerifyServiceProgram.VerifyStore.PersistVerification` | src/application/verify.service.ts:186-239 | the request is stored, then the verification row of this call, which a unique constraint may refuse |
| `SettleServiceTheorems.EveryConfirmationReceipted` | src/infrastructure/workers/confirm-settlement.worker.ts:142-190 | in any interleaving of settle runs and confirmation attempts every confirmed row's request has a receipt |
| `SettleServiceTheorems.RunGrows` | prisma/schema.prisma:174 | a receipt, once written, is never replaced or rewritten, so there is at most one per request |
| `SettleServiceTheorems.ReceiptWritten` | src/infrastructure/workers/confirm-settlement.worker.ts:142-190 | jobs included, for every event: a receipt is written only by the step that confirms the row it names, the caller's own or the one of the worker's job, and carries the id generated for it, which no receipt had |
| `SettleServiceTheorems.RunReceipts` | prisma/schema.prisma:170-176 | in every run, jobs included, every receipt names a row of its own request, and receipt ids are unique |
| `SettleServiceTheorems.OneHashOneRow` | prisma/schema.prisma:146-146 | in every run, jobs included, no two settlements carry one transaction hash |
| `SettleServiceTheorems.MutexExactly` | src/application/settle.service.ts:93-101 | a step of anybody, worker included, breaks mutual exclusion if and only if it takes the lock from a runSettle that holds it |
| `SettleServiceTheorems.MutualExclusion` | src/application/settle.service.ts:93-101 | as long as no step does that, at most one runSettle per request is between SET NX and DEL, over all interleavings with workers, crashes, expiries and failure exits |
| `SettleServiceTheorems.SubmitsAtMostOnce` | src/application/settle.service.ts:62-151 | over every sequence of non-overlapping calls, some cut short, submitOnChain is entered at most once per request |
| `SettleServiceTheorems.SubmitsOnceFromStart` | src/application/settle.service.ts:62-151 | single shot from the empty stores: in every such sequence each request is submitted at most once |
| `SettleServiceTheorems.SecondRowExactly` | src/application/settle.service.ts:62-113 | a request gets its second row in one step if and only if a caller creates one while one exists |
| `SettleServiceTheorems.OneRowExactly` | src/application/settle.service.ts:62-113 | over every run from the start: at most one row per request if and only if no step did that |
| `SettleServiceTheorems.SubmitsOnceUnlessCreatedAgain` | src/application/settle.service.ts:62-151 | over all interleavings in which no step did that for a request, submitOnChain is entered at most once for it |
| `SettleServiceWitnesses.OverlapSubmitsTwice` | src/application/settle.service.ts:62-101 | for every accepted verification, a run of two overlapping calls, with no expiry, crash or job, whose step i creates again and which enters submitOnChain twice |
| `SettleServiceReplies.Agreement` | src/application/settle.service.ts:62-209 | without confirmation jobs, any two confirmed answers for one request are equal in every field |
| `SettleServiceReplies.UndoStep` | src/application/settle.service.ts:210-216 | without confirmation jobs, a confirmed row changes in one step if and only if its own creator runs the failure path on it |
| `SettleServiceTheorems.ConfirmedRowChangesExactly` | src/infrastructure/workers/confirm-settlement.worker.ts:121-190 | with jobs too, for every event: a confirmed row changes in one step if and only if its creator's failure write, a worker's write of failed (receipt reverted, or attempts used up) or a worker's confirmation with other details takes effect on it |
| `SettleServiceTheorems.OneReceiptAnswered` | src/application/settle.service.ts:62-209 | whatever jobs, expiries, crashes and faults there are, any two confirmed answers for one request carry the same receipt, the one stored |
| `SettleServiceTheorems.SecondConfirmedExactly` | src/infrastructure/workers/confirm-settlement.worker.ts:142-190 | jobs included, for every event: a request gets a second confirmed row in one step if and only if a worker persists its job while another row of the request is confirmed |
| `SettleServiceTheorems.OneConfirmedExactly` | src/infrastructure/workers/confirm-settlement.worker.ts:142-190 | over every run from the start: at every moment at most one confirmed row per request if and only if no step did that |
| `SettleServiceWitnesses.JobConfirmsSecondRow` | src/infrastructure/workers/confirm-settlement.worker.ts:142-190 | for every accepted verification, a run without expiry or crash whose last step does that: two confirmed rows and one receipt |
| `SettleServiceWitnesses.JobChangesTheAnswer` | src/infrastructure/workers/confirm-settlement.worker.ts:142-190 | for every accepted verification, a run with a job in which two confirmed answers for one request differ in the hash |
| `SettleServiceReplies.FailurePathOnConfirmed` | src/application/settle.service.ts:194-195 | and that happens exactly when the DEL after the confirmation threw or the commit's acknowledgement was lost |
| `SettleServiceWitnesses.FailedDeleteUndoes` | src/application/settle.service.ts:194-222 | for every accepted verification, a run in which everything is answered, the commit included, until that DEL throws at step i, deleted or not; the call answers settlement_failed and the confirmed, receipted row ends failed |
| `SettleServiceReplies.ThrowsExactly` | src/application/settle.service.ts:44-113 | runSettle threw if and only if the verification read, the settlement read, SET NX or the row creation failed, for every call in every run |
| `SettleServiceWitnesses.FirstReadThrows` | src/application/settle.service.ts:44-51 | for every request, a run in which it throws |
| `SettleServiceReplies.LaterCallsRepeatTheAnswer` | src/application/settle.service.ts:62-91 | in sequential use every later call that is not cut short repeats a confirmed answer: settlement, hash, fees, time and receipt |
| `SettleServiceAnswers.AnswersExactly` | src/application/settle.service.ts:39-223 | over all runs, jobs included, a call that did not crash answers with exactly what it was told last: the row it found, with all fields, settlement_failed for a failed one and after the catch block, settlement_pending for one in flight and for a taken lock, its own receipt and row, or the throw |
| `SettleServiceAnswers.FoundRowDecides` | src/application/settle.service.ts:62-91 | a call whose read finds a row ends there: settlement_failed if and only if the row is failed, settlement_pending if and only if it is processing, the settlement if and only if it is confirmed |
| `SettleServiceAnswers.SubmissionExactly` | src/application/settle.service.ts:117-151 | a call that ends without crashing has entered submitOnChain if and only if it created its row and found the asset; a settlement it then answers carries the hash that was returned to it |
| `SettleServiceAnswers.LaterCallsAnswerTheStatus` | src/application/settle.service.ts:62-91 | in sequential use without jobs, a settlement nobody works on stays as it is, every later call that is not cut short answers by its status, for ever, and none submits |
| `SettleServiceAnswers.LaterCallsRepeatTheFailure` | src/application/settle.service.ts:85-87 | so after a failed settlement every later call that is not cut short answers settlement_failed, and none submits |
| `SettleServiceWitnesses.Answers` | src/application/settle.service.ts:39-209 | for every accepted verification, the run of one call in which everything is answered ends confirmed, with its row, its receipt and no lock |
| `SettleServiceProgram.SettleStore.RunSettle` | src/application/settle.service.ts:39-223 | runSettle, interleaved with everybody else, is a run of the machine and answers what that run told it; it throws exactly when one of those four awaits failed, and without jobs a confirmed answer is the request's receipt and its row's details |
| `SettleServiceProgram.SettleStore.ConfirmAndUnlock` | src/application/settle.service.ts:157-209 | confirmation and DEL both lie inside the try block |
| `SettleServiceProgram.SettleStore.CatchBlock` | src/application/settle.service.ts:210-222 | both commands of the catch block are attempted and their errors swallowed |
| `WorkerTheorems.JobEndsDecided` | src/infrastructure/workers/confirm-settlement.worker.ts:74-203 | a finished job whose row nobody else writes leaves it confirmed with a receipt or failed, if the failed handler's own write lands |
| `SettleServiceWitnesses.JobConfirms` | src/infrastructure/workers/confirm-settlement.worker.ts:74-203 | in every state in which no other row has its hash and no other receipt its id: a job on a processing row whose awaits are answered and whose transaction succeeded confirms the row, writes the receipt unless there is one, deletes the lock and is finished |
| `SettleServiceWitnesses.JobMarksReverted` | src/infrastructure/workers/confirm-settlement.worker.ts:121-134 | a job on a processing row whose transaction reverted marks it failed, and its next attempt ends it |
| `WorkerTheorems.RerunExactly` | src/infrastructure/workers/confirm-settlement.worker.ts:82-95 | over a whole run of a job on a decided settlement nobody else writes, the row is unchanged at the end if and only if not all five reads threw, or the failed handler's write had no effect, or the row was failed already |
| `WorkerTheorems.RerunTouchesNothingElse` | src/infrastructure/workers/confirm-settlement.worker.ts:82-95 | and none of the job's steps changes another row, a receipt or a lock |
| `SettleServiceWitnesses.RerunOverwrites` | src/infrastructure/workers/confirm-settlement.worker.ts:225-243 | for every accepted verification, a run in which a call is answered confirmed, then a job starts, all its five reads throw, and the settlement ends failed |
| `SettleServiceWitnesses.LastAttemptOverwrites` | src/infrastructure/workers/confirm-settlement.worker.ts:82-119 | for every accepted verification, a run in which a job on its last attempt has read an undecided row, the call then confirms and answers, the job's poll times out, and the settlement ends failed |
| `WorkerTheorems.AttemptsBounded` | src/infrastructure/workers/confirm-settlement.worker.ts:42-48 | no job is attempted more than five times in any run |
| `WorkerProgram.SettlementWorker.RunJob` | src/infrastructure/workers/confirm-settlement.worker.ts:39-47 | up to five attempts, then the failed handler; the job always ends, confirmed rows stay receipted, and when nobody else writes its row and the failed handler's write lands, the settlement ends confirmed with a receipt or failed |
| `WorkerProgram.SettlementWorker.ConfirmSettlement` | src/infrastructure/workers/confirm-settlement.worker.ts:74-203 | one attempt: it completes, or throws and is retried |
| `WorkerProgram.SettlementWorker.Listen` | src/infrastructure/workers/confirm-settlement.worker.ts:107-119 | the first client that delivers a receipt decides; a client is asked only when all before it failed |
| `WorkerProgram.SettlementWorker.PersistConfirmed` | src/infrastructure/workers/confirm-settlement.worker.ts:142-190 | confirm the row with the job's hash and find or create the receipt, which names the row and has the generated id, together or not at all |
| `WorkerProgram.SettlementWorker.GiveUp` | src/infrastructure/workers/confirm-settlement.worker.ts:225-243 | after the last attempt the row is marked failed, whatever it was |
| `Breaker.RunKeeps` | src/infrastructure/circuit-breaker.ts:89-157 | however calls overlap: counters below their thresholds and equal to what the outcomes since the last transition say, and every admitted call counted exactly once, even after its timeout |
| `Breaker.TripsExactly` | src/infrastructure/circuit-breaker.ts:126-135 | outside half-open an outcome trips the breaker if and only if it completes a run of failureThreshold consecutive failures since the last transition |
| `Breaker.ProbeDecides` | src/infrastructure/circuit-breaker.ts:115-135 | in half-open one failure reopens; success number successThreshold closes, and nothing else does |
| `Breaker.OpenWindow` | src/infrastructure/circuit-breaker.ts:77-87 | after a trip at T nothing is admitted before T + resetTimeoutMs without reset(), whatever late completions arrive |
| `Breaker.AdmittedOutsideTheWindow` | src/infrastructure/circuit-breaker.ts:77-92 | a fresh call is admitted if and only if the window is not running |
| `Breaker.EndsExactly` | src/infrastructure/circuit-breaker.ts:89-113 | a call in flight counts as a success exactly when its function resolves, as a failure exactly when it rejects or its timer fires, and is passed on uncounted exactly when it rejects with a CircuitOpenError |
| `Breaker.ResetIsFresh` | src/infrastructure/circuit-breaker.ts:160-166 | reset() leaves the fields of a new breaker and no call touched |
| `Breaker.HalfOpenAdmitsAny` | src/infrastructure/circuit-breaker.ts:77-92 | any number of calls are admitted at once in half-open |
| `Breaker.ManyProbes` | src/infrastructure/circuit-breaker.ts:77-157 | for all thresholds and every n, a run that reaches half-open and ends with n calls in flight there |
| `BreakerProgram.CircuitBreaker.Execute` | src/infrastructure/circuit-breaker.ts:89-113 | execute, with any other calls in between, is a run of the machine; fn runs exactly when the window is not running; it answers fn's value, fn's error, the timeout or CircuitOpenError exactly when that won the race, and the winner is counted |
| `RpcBreaker.RunKeeps` | src/infrastructure/rpc-circuit-breaker.ts:130-146 | outside half-open the leaky counter is the largest surplus of failures over successes in any suffix of the outcomes since the last transition, and no run of outcomes has reached the threshold |
| `RpcBreaker.TripsExactly` | src/infrastructure/rpc-circuit-breaker.ts:139-146 | an outcome trips the breaker if and only if it is the first to give some contiguous run a surplus of failureThreshold |
| `RpcBreaker.LargestSuffixSnoc` | src/infrastructure/rpc-circuit-breaker.ts:130-146 | leaking by one per success and adding one per failure computes the largest suffix surplus |
| `RpcBreaker.ProbeDecides` | src/infrastructure/rpc-circuit-breaker.ts:130-143 | in half-open a failure reopens and success number successThreshold closes |
| `RpcBreaker.HalfOpenAdmitsAny` | src/infrastructure/rpc-circuit-breaker.ts:83-102 | however many calls have entered in half-open and not completed, the next one may run fn once as well |
| `RpcBreaker.ReachesHalfOpen` | src/infrastructure/rpc-circuit-breaker.ts:69-90 | for all thresholds, a run that reaches half-open |
| `RpcBreaker.AttemptsKeep` | src/infrastructure/rpc-circuit-breaker.ts:92-128 | a whole retry loop among other calls keeps the invariant |
| `RpcBreaker.AttemptsAreARun` | src/infrastructure/rpc-circuit-breaker.ts:92-128 | the retry loop is one run of the breaker: a success or a retryable failure counted per attempt, nothing for a non-retryable error, in their place among everybody else's events |
| `RpcBreaker.BackoffRange` | src/infrastructure/rpc-circuit-breaker.ts:120-123 | the i-th delay lies in [base * 2^i, base * 2^i + 50) ms and may be anything there |
| `RpcBreaker.WaitsBounded` | src/infrastructure/rpc-circuit-breaker.ts:120-123 | n waits take base * (2^n - 1) ms plus less than 50 ms of jitter each |
| `RpcBreaker.ExponentialIsPower` | src/infrastructure/rpc-circuit-breaker.ts:121-121 | the doubling delays are baseDelayMs * 2^attempt |
| `RpcBreaker.RpcCircuitBreaker.Call` | src/infrastructure/rpc-circuit-breaker.ts:92-128 | at most maxRetries runs of fn, one when entered half-open, none when the window runs; the first success, the first non-retryable error or the last error; waits bounded; breaker left as the counted outcomes, in their place among other calls', leave it |
| `RateLimit.RunKeeps` | src/infrastructure/rate-limit.ts:58-85 | in every run requests and tickets correspond one for one, a request is let through by count exactly when its rank is within the limit, and answers fall into the life of their ticket |
| `RateLimitTheorems.LifeAdmitsExactly` | src/infrastructure/rate-limit.ts:58-69 | of the n requests that made their INCR in one lifetime of the key, exactly min(n, limit) are answered by letting them through, once all have been answered by count |
| `RateLimitTheorems.WindowAdmitsTwiceTheLimit` | src/infrastructure/rate-limit.ts:58-69 | in any interval of one window at most 2 * limit requests are answered by letting them through by count, under every interleaving, fault and crash |
| `RateLimitTheorems.ExpireSetsWindow` | src/infrastructure/rate-limit.ts:60-62 | an EXPIRE that takes effect ends the key one window from now |
| `RateLimitTheorems.LifeEndsExactly` | src/infrastructure/rate-limit.ts:58-62 | over every continuation, the key's lifetime goes on exactly until then, whatever is counted meanwhile |
| `RateLimit.WindowRoundsUp` | src/infrastructure/rate-limit.ts:47-48 | the window is the least number of whole seconds that holds the configured one |
| `RateLimitTheorems.ImmortalExactly` | src/infrastructure/rate-limit.ts:59-62 | a step leaves the key without expiry for ever if and only if it was so before, or the INCR that creates the key is not heard of, or the EXPIRE has no effect, or its request crashes before it |
| `RateLimitTheorems.ImmortalRuns` | src/infrastructure/rate-limit.ts:59-62 | over whole runs: the key is so at the end if and only if one of those steps happened |
| `RateLimitTheorems.DroppedExpire` | src/infrastructure/rate-limit.ts:60-62 | the run of two steps, an answered INCR and a dropped EXPIRE |
| `RateLimitTheorems.CrashBeforeExpire` | src/infrastructure/rate-limit.ts:60-62 | the run of two steps, an answered INCR and a crash of its request |
| `RateLimitTheorems.ImmortalForEver` | src/infrastructure/rate-limit.ts:59-62 | such a key stays, with the same life, whatever happens later |
| `RateLimitTheorems.BlockedForEver` | src/infrastructure/rate-limit.ts:69-80 | for every limit, the run of one unheard INCR and as many answered ones as the limit, after which every request whose INCR is answered gets 429, for ever |
| `RateLimitProgram.SellerLimit.Hook` | src/infrastructure/rate-limit.ts:50-85 | the hook is a run of the machine: 429 exactly for a rank beyond the limit, otherwise limit minus rank left, and an error of either command lets the request through |
| `DeviceAuth.TokensAreEarned` | src/http/routes/device-auth.route.ts:104-130 | every token answers a poll in time that follows an unexpired activation of the paired user code (RFC 8628, sections 3.3 to 3.5) |
| `DeviceAuth.OneTokenPerAuthorization` | src/http/routes/device-auth.route.ts:123-123 | different tokens stem from different authorizations |
| `DeviceAuth.OneTokenPerActivation` | src/http/routes/device-auth.route.ts:148-158 | different tokens stem from different activations, even of one user code shared by devices |
| `DeviceAuth.FreshCodeOneToken` | src/http/routes/device-auth.route.ts:64-72 | a device code handed out once yields at most one token over any run |
| `DeviceAuth.PollAnswersExactly` | src/http/routes/device-auth.route.ts:104-130 | in every reachable state a poll is answered invalid_grant, expired_token, authorization_pending or with a token exactly when the code is unknown, expired, unapproved or approved (RFC 8628, section 3.5) |
| `DeviceAuth.LeavesExactly` | src/http/routes/device-auth.route.ts:104-130 | a pending device goes in one step if and only if its own poll is answered expired_token or with a token, or its code is handed out anew |
| `DeviceAuth.OneGrantPerAnswer` | src/http/routes/device-auth.route.ts:123-130 | a token is recorded exactly when a poll is answered with one |
| `DeviceAuth.ApprovedStep` | src/http/routes/device-auth.route.ts:148-158 | an approval stays until its own device polls or is authorized anew |
| `DeviceAuth.ApprovedDeviceServed` | src/http/routes/device-auth.route.ts:104-130 | an approved device that polls in time gets its token, and its code is spent |
| `DeviceAuth.ActivatesExactly` | src/http/routes/device-auth.route.ts:151-156 | in every state an activation approves a pending device if and only if the code is its own, it has not expired, and no earlier device, expired or not, has the same code |
| `DeviceAuth.ExpiredCodeShadows` | src/http/routes/device-auth.route.ts:151-154 | for every user code, a run in which an expired device hides a live one |
| `DeviceAuth.DeviceFlow.PostToken` | src/http/routes/device-auth.route.ts:104-130 | the errors of section 3.5 in the order the code checks them; the entry goes on expiry and on success |
| `DeviceAuth.DeviceFlow.PostActivate` | src/http/routes/device-auth.route.ts:148-159 | approves the first pending device with the code, in insertion order, exactly when it has not expired |

## Left out

- Chain reorganisations and MIN_CONFIRMATIONS: a mined status is final.
- The wallet library's replacement of transactions and its inner retries: one broadcast is one transaction.
- The chain that `submitOnChain` is configured for: it always uses Base, whatever `chainId` says; addresses and nonces are not qualified by chain.
- `submitOnChain` inside runSettle: one await with an arbitrary answer, because what it submits there (a hash in place of the signature) cannot be related to a signed authorization; the lookup of the seller's wallet before it is part of that await.
- Signature recovery, SHA-256, `parseX402Payload`, `computeFees` and `verifyTransferAuthorization`: abstract functions or parameters; their definitions are not part of this model.
- Lower-casing is ASCII only; the source applies it to hex text, network names and addresses.
- The payload hash that verifyPayment stores for audit, invoice ids, schemes and protocol versions: written, never read by these protocols.
- TTL values: a lock or replay key may expire at any moment, which covers every TTL; in the rate limiter and the breakers time is explicit.
- Generated ids: a settlement row's id is its position; request and receipt ids are arbitrary choices that the unique constraints may refuse.
- VerifyServiceProgram.VerifyStore.PersistVerification: the lookup of the network record is folded into the upsert, whose await may fail for that reason too.
- VerifyServiceProgram.VerifyStore.SetBoth: a failing SET makes the call end when both have been answered; the source rejects as soon as the first fails, which only moves the end of that call earlier.
- The worker's fees use the job's own gross amount, the model the request's; both come from the same row when the job is enqueued.
- Order, first and last use date in referral statistics: the totals do not depend on them.
- Timers under a blocked event loop: a timeout may fire late, never early.
- The rate limiter's key: one seller and one endpoint; that two API keys with equal letters and digits in their first 16 characters share it is not modelled. The response headers other than the remaining count are left out.
- The user code generator and its collisions: codes are arbitrary, equal ones included.
- HTTP routing, schemas, logging, metrics, audit records, webhooks, dashboards, SDKs and configuration loading.
- Enqueueing of confirmation jobs: any job may start for any existing row and its request, with any hash.
- A crash of the worker process: a crashed worker is one that does not act again, and taking up its stalled job is another start of the same job, whose attempt count begins anew.
- Liveness: a crash may leave rows pending and keys held until they expire.
