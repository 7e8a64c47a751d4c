# Steward payment spine: model and proofs

Steward lets an assistant pay bills for someone under rules the owner set. Every payment goes through one
spine: the policy engine gives a verdict, the orchestrator writes the intent, the decision, the cosign request
and the transaction, the provider moves the money, and the audit log records it. This project models that spine
and the parts that must agree with it, and proves what holds in every reachable state and over every run.

How it is laid out:

- `Policy.dfy`, `Mandates.dfy`, `RuleLaws.dfy`: `PolicyService.evaluate` as the loop it is, the compact mandate (least
  caps, least threshold, intersected lists, conjoined time windows) that the loop refines, and what each reason and
  verdict says of amounts, lists, hours and spend.
- `Spine.dfy`: the database rows, and what each public entry does to them when it runs to completion.
  `SpineInvariant.dfy`, `SpineSteps.dfy`, `SpineRuns.dfy`, `SpineSums.dfy`: the master invariant, the shape of a
  step, and the results over whole runs (moves, revocation, replay, log, monthly cap).
  `Verdicts.dfy`: what a new payment and an approval are answered and leave in the rows, said of the input and the
  credential's rules, and that every payment ever charged or held keeps to them.
- `Deliveries.dfy`, `DeliveryRuns.dfy`: the handlers of one held intent split at their awaits, in any number and any
  order: exactly which of their runs keep the master invariant, and the runs of the source that do not.
- `InitiateRaces.dfy`, `EarlyRequeries.dfy`: the same for an intent that is allowed at once, whose requeries overlap
  the provider call of `initiatePayment`.
- `MockProvider.dfy`, `MockLaws.dfy`, `Agreement.dfy`: the mock provider with its cache of shared result objects, its
  answers by the digits of the amount and the letters of the biller, and its agreement with the intents.
- `Services.dfy`: the services as classes that update one database in place. Each method is proved to do exactly
  what the functions of `Spine.dfy` and `Agreement.dfy` say, so the results over runs are about these methods.
- `Race.dfy`, `RaceIsTight.dfy`, `AtomicRuns.dfy`: payments split at their awaits, the exact bound on how far the
  monthly cap can be overshot, a run that reaches it, and the proof that every run of the spine is one of these
  interleavings.
- `Statistics.dfy`, `ContextQuery.dfy`, `HabitCache.dfy`, `HabitRaces.dfy`, `Anomaly.dfy`, `AnomalyRuns.dfy`: the read
  models in exact arithmetic. The habit rows are shown to agree with the payments after every run, and exactly when
  they still do if handlers overlap and payments leave EXECUTED; the flags are told from the rows, over whole runs.
- `PinLock.dfy`, `PinAnswers.dfy`, `PinRaces.dfy`, `PinRacesTight.dfy`, `PinDesks.dfy`: the PIN lockout, one check at a
  time and with overlapping checks, what each check is answered, the exact number of guesses either lets through, and
  the proof that both are about the same service.
- `SessionKeys.dfy`, `AgentSession.dfy`, `Conversations.dfy`, `FreshKeys.dfy`, `KeyRaces.dfy`: the keys of the agent,
  the lists it sends, the conversation it keeps, and when its keys are fresh, for messages one at a time and for
  messages that overlap.
- `Speech.dfy`: the text the voice channel speaks.

What a run is. A run of the spine starts from any credentials, rules, billers and contacts with no payment yet, and
takes any sequence of: a payment initiated, a cosign request answered, an answer delivered once more, a pending
payment requeried, a credential revoked, the clock moved forward. Each of these steps runs to completion: the
results about runs of the spine are results about runs whose steps do not overlap. The provider may answer
anything at every call, or throw; the results about the mock take the mock's own answers. Assumed: database and
audit writes succeed, the clock does not run back, the process does not restart, `voidIntent` is reached only
through its two callers.

Where steps overlap. Nothing in the source keeps two entries on one intent apart, and two of its normal paths let them
overlap. There the master invariant, the agreement with the mock, the log sums and the rank of a status all fail, and
the layers above say exactly when.

Deliveries. `payments.module.ts:19-23` registers the orchestrator under two tokens, and both instances listen to
`cosign.resolved`, so one emitted answer starts two handlers at once. `DeliveryRuns.TwoHandlersChargeTwice` and
`DeliveryRuns.OverlappingApprovals` give the run (two calls of one key, a transaction row, the intent FAILED, and the
spend of the next check unchanged), `DeliveryRuns.OverlappingCallsDisagree` gives it against the mock,
`DeliveryRuns.DenialDuringTheCall` and `DeliveryRuns.LateDenialIsReachable` give the two ways in which a denial
accepted in time does it. `DeliveryRuns.SoundIffOneOutcome` says exactly which runs are safe: at most one approval
gets past status guard and recheck, nothing is voided in a run in which one does, and no requery marks a settled
payment failed. `Deliveries.MoveKeepsIff` gives the guard each single move would need, and
`DeliveryRuns.ResolveIsARun` shows that the atomic step of the spine is the run in which one handler finishes before
anything else starts.

Requeries. `GET /payments/:id` is `requeryIntent` (`payment-test.controller.ts:17-20`), and `initiatePayment` commits
the row as ALLOWED before it awaits `execute`, while a replay of the key hands out the id. A requery in between hears
"Transaction not found" from the mock and marks the intent FAILED; the call then pays it
(`InitiateRaces.FailedIntentIsPaid`), or stays pending beside a FAILED row (`InitiateRaces.FailedIntentIsPending`).
Or the requery settles first, and the call's own write fails on the transaction row and marks the paid intent FAILED
(`InitiateRaces.PaidIntentIsFailed`). `EarlyRequeries.MissedRequery`, `SettledRequery`, `MissedRequeryDisagrees` and
`SettledRequeryDisagrees` say the same of the database and the mock. `InitiateRaces.SoundIffOneResult` says exactly
which runs are safe: EXECUTED and FAILED are not both written, and a pending reply is not logged over a result. For a
call that does not fail this means that no requery writes a result while the call is out
(`InitiateRaces.SoundIffNothingEarly`). `EarlyRequeries.InitiateIsARun` shows that the atomic initiation is the run in
which nothing overlaps.

Taken as parameters: the local hour of a time zone (a function that may fail), the month of a timestamp, the
provider's reference and token, the random digits of a token, whether a PIN matches, what the model answers,
whether a session save goes through.

Where the code differs from what its documentation says, the code is followed:

- `voidIntent` has no status guard. It keeps the invariant exactly when the intent is held or already voided
  (`SpineInvariant.VoidIsSafeOnlyIfHeld`). A denial that arrives after the payment executed marks the intent voided
  although the money moved, and the amount drops out of the month's spend (`SpineInvariant.LateDenialForgetsSpend`).
- The three-strike lockout holds for checks one at a time. With at most k checks of a user under way, a window of W
  ms compares up to k(k + 5)/2 + k * (W / LOCK_MS) guesses (`PinRaces.OverlappingGuessesPerWindow`), and that many
  are reached (`PinRacesTight.BoundIsReached`); without a limit on k any number of simultaneous guesses is compared
  and counted as one miss (`PinRacesTight.SimultaneousGuessesAreAllCompared`).
- PROJECT.md (D7) promises at most one payment per utterance. The code mints a key for every payment a message
  dispatches (`FreshKeys.OneMessageMayPayAnyNumber`), and keys are unique only while the session's count is current.
  `FreshKeys.KeysAreFreshIffNothingLost` states exactly when for messages one at a time,
  `KeyRaces.KeysAreFreshIffNoneIsStale` for messages that overlap. `FreshKeys.AnUnreachableModelRepeatsAKey`,
  `KeyRaces.OverlappingMessagesRepeatAKey` and `KeyRaces.QuietMessageRepeatsAKey` give runs where a key comes back.
  By `SpineRuns.ReplayIsInert` the second payment is then answered with the first one and no money moves for it.
- `windowMessages` is meant to send the recent conversation. When the turn being worked on has more than 14
  messages it sends the system message alone (`AgentSession.SentShowsTheTurn`), which one round of 13 calls brings
  about (`AgentSession.ManyCallsHideTheTurn`); one call per round always stays within 14
  (`AgentSession.OneCallPerRoundIsSeen`).
- PROJECT.md accepts the race on the monthly cap (R7) without a bound. `Race.OvershootIsBounded` gives the bound, and
  `RaceIsTight.BoundIsReached` reaches it with a key of its own for every payment. It bounds EXECUTED rows and
  payments under way, not money: when two handlers of one approval both call the provider, the intent ends FAILED and
  the spend the next check reads is what it was (`DeliveryRuns.OverlappingApprovals`).
- The habit table is recomputed on executed events only. An intent that leaves EXECUTED, marked FAILED by a second
  handler or VOIDED by a late denial, stays in its habit row (`HabitRaces.DepartedPaymentStaysInTheRow`);
  `HabitRaces.RowIsCurrentIff` says exactly when the row is current.
- The schema has a cosign status `EXPIRED` (`prisma/schema.prisma:66`), but no code sets it, and the invariant says
  that it is never stored.

## Model

| member | source | states |
|---|---|---|
| Policy.CheckRule | ecx-backend/src/policy/policy.service.ts:48-155 | one rule's branch adds exactly that rule's reasons, a recipient lock two of them |
| Policy.CheckGuards | ecx-backend/src/policy/policy.service.ts:22-45 | the amount, safe-integer and revocation guards add their reasons in this order |
| Policy.Evaluate | ecx-backend/src/policy/policy.service.ts:15-177 | the loop over the rules and the precedence of verdicts yield the guards' reasons, then the rules' in order, and the verdict DENY before ESCALATE before ALLOW |
| Policy.DecideSplits | ecx-backend/src/policy/policy.service.ts:158-170 | the verdict is the stricter of what the guards and what the rules demand |
| Policy.GuardVerdict | ecx-backend/src/policy/policy.service.ts:22-45 | the guards deny exactly revoked credentials, non-positive amounts and sums past the safe integers |
| Policy.JoinIsStricter | ecx-backend/src/policy/policy.service.ts:47-170 | two rule lists joined give the stricter of their two verdicts |
| Policy.VerdictIsWorstRule | ecx-backend/src/policy/policy.service.ts:47-170 | the rules demand a verdict exactly when one single rule demands it |
| Policy.MoreRulesNeverLoosen | ecx-backend/src/policy/policy.service.ts:47-170 | a list that contains all rules of another is at least as strict, whatever the order and repetition |
| Policy.RuleOrderIsIrrelevant | ecx-backend/src/policy/policy.service.ts:47-170 | permuting the rules keeps the verdict |
| Policy.VerdictIsMonotone | ecx-backend/src/policy/policy.service.ts:22-170 | a larger positive amount on a larger spend is judged at least as strictly |
| Policy.PassedIsSafe | ecx-backend/src/policy/policy.service.ts:22-70 | anything but DENY means a positive amount, a live credential, an exact sum, and every cap kept |
| Policy.RevokedIsDenied | ecx-backend/src/policy/policy.service.ts:42-45 | a revoked credential is denied whatever its rules say |
| Mandates.MeetIsStricter | ecx-backend/src/policy/policy.service.ts:158-170 | combining two mandates gives the stricter verdict of the two |
| Mandates.OneRule | ecx-backend/src/policy/policy.service.ts:49-155 | each rule type means the mandate with just its cap, list, threshold or window |
| Mandates.EvaluateRefinesMandate | ecx-backend/src/policy/policy.service.ts:15-177 | for every rule list and request the evaluator's verdict is that of the compact mandate |
| Mandates.RoundingIsHarmless | ecx-backend/src/policy/policy.service.ts:30-40 | rounding spend plus amount to a double cannot change a verdict, because the safe-integer guard fires first |
| RuleLaws.ReasonsAreGivenFor | ecx-backend/src/policy/policy.service.ts:22-155 | each reason is given exactly for its own cap, list, lock, scope, threshold, window or guard: the amount above it, the biller off it, the hour outside it |
| RuleLaws.VerdictFollows | ecx-backend/src/policy/policy.service.ts:22-170 | denied exactly if some guard, cap, list, lock, scope or window is broken, held exactly if none is and the amount is above a cosign threshold, else allowed |
| RuleLaws.ReasonsAreInOrder | ecx-backend/src/policy/policy.service.ts:22-155 | the guards' reasons come first, then those of the rules, in the order of the rules |
| RuleLaws.GuardsGiveOneEach | ecx-backend/src/policy/policy.service.ts:22-45 | the sign of the amount, the safe integers and the revocation give one reason each, in this order |
| RuleLaws.LockReasonsInOrder | ecx-backend/src/policy/policy.service.ts:83-97 | a recipient off the lock gets the mismatch first, then the allowlist reason, and no other |
| RuleLaws.WindowVerdict | ecx-backend/src/policy/policy.service.ts:120-153 | a credential with one window denies for it exactly if the hour is unknown, or the window has a length and the hour is not among the (e - s) % 24 hours from s on |
| RuleLaws.WindowsSplitTheDay | ecx-backend/src/policy/policy.service.ts:120-140 | a window is open at its start and shut at its end, it and its reverse split the day, and one without length is always open |
| RuleLaws.ShutWindowDenies | ecx-backend/src/policy/policy.service.ts:120-153 | whatever else the credential carries, an hour outside one of its windows is denied |
| SpineInvariant.RunKeeps | ecx-backend/src/payments/payment-orchestrator.service.ts:24-592 | in every run whose steps do not overlap: EXECUTED iff a transaction row, ESCALATED iff cosign PENDING, DENY iff DENIED, VOIDED only under ESCALATE, PENDING and EXPIRED never stored, one provider call iff charged, last log line gives the status |
| SpineInvariant.FreshHolds | ecx-backend/prisma/schema.prisma:136-200 | a database before its first payment satisfies the invariant |
| SpineInvariant.ChargeView | ecx-backend/src/payments/payment-orchestrator.service.ts:162-255 | everything a provider call and its reply change about the charged intent, and that no other intent is touched |
| SpineInvariant.VoidView | ecx-backend/src/payments/payment-orchestrator.service.ts:466-492 | everything a void changes about its intent, and that no other intent is touched |
| SpineInvariant.RequeryView | ecx-backend/src/payments/payment-orchestrator.service.ts:494-576 | the three outcomes of a requery: settled with a transaction, failed, or nothing changed |
| SpineInvariant.CommitView | ecx-backend/src/payments/payment-orchestrator.service.ts:116-160 | the rows of a decided intent: status from the verdict, decision stored, a pending cosign request iff ESCALATE |
| SpineInvariant.ChargeKeeps | ecx-backend/src/payments/payment-orchestrator.service.ts:352-463 | a charge of an uncalled intent keeps the invariant for every reply, a throw included |
| SpineInvariant.InitiateKeeps | ecx-backend/src/payments/payment-orchestrator.service.ts:24-291 | initiatePayment, run to completion, keeps the invariant: replayed, rejected, rolled back or opened |
| SpineInvariant.ResolveKeeps | ecx-backend/src/cosign/cosign.service.ts:37-46 | a resolved cosign request, its one handler run to completion, keeps the invariant: resumed, voided on recheck, or declined |
| SpineInvariant.RequeryKeeps | ecx-backend/src/payments/payment-orchestrator.service.ts:508-569 | a requery that runs to completion keeps the invariant |
| SpineInvariant.RedeliveryIsInert | ecx-backend/src/payments/payments.module.ts:19-23 | a delivery that starts after an earlier one has finished changes nothing for an approval, and for a denial only adds a second voided line |
| SpineInvariant.StepKeeps | ecx-backend/src/payments/payment-orchestrator.service.ts:24-592 | every kind of step, run to completion, keeps the invariant |
| SpineInvariant.VoidIsSafeOnlyIfHeld | ecx-backend/src/payments/payment-orchestrator.service.ts:466-486 | voidIntent keeps the invariant if and only if the intent is held or already voided |
| SpineInvariant.LateDenialForgetsSpend | ecx-backend/src/payments/payment-orchestrator.service.ts:578-592 | a denial handled after the payment executed leaves its transaction, marks it VOIDED and lowers the month's spend by its amount |
| Deliveries.MoveKeepsIff | ecx-backend/src/payments/payment-orchestrator.service.ts:293-592 | for handlers in any order, a move keeps the invariant of the intent if and only if it is guarded: a call while held and none is out, a void while none is out and the intent is held or voided, no requery's failure over a settled payment |
| Deliveries.MoveIsForwardIff | ecx-backend/src/payments/payment-orchestrator.service.ts:293-592 | of the guarded moves exactly a requery's settlement over a written failure moves the status against its rank |
| Deliveries.ReadSpendKeepsIff | ecx-backend/src/payments/payment-orchestrator.service.ts:306-359 | an approval that passes its recheck keeps the invariant exactly if the intent is still held and no call is out |
| Deliveries.VoidKeepsIff | ecx-backend/src/payments/payment-orchestrator.service.ts:466-486 | a void keeps it exactly if no call is out and the intent is held or voided |
| Deliveries.WriteKeeps | ecx-backend/src/payments/payment-orchestrator.service.ts:361-463 | writing the answer of the one call that is out keeps it, whatever the provider answered |
| Deliveries.RequeryKeepsIff | ecx-backend/src/payments/payment-orchestrator.service.ts:508-569 | writing a requery's answer keeps it exactly if it is not a failure over a settled payment |
| DeliveryRuns.SoundIffOneOutcome | ecx-backend/src/payments/payment-orchestrator.service.ts:293-592 | for any number of overlapping handlers of a held intent: every state is sound if and only if at most one approval gets past status guard and recheck, nothing is voided in a run in which one does, and no settled payment is marked failed; each approval that passes is one provider call |
| DeliveryRuns.OneOutcomeSettles | ecx-backend/src/payments/payment-orchestrator.service.ts:293-592 | when no call is out such a run has left the intent coherent and every handled answer answered |
| DeliveryRuns.OneOutcomeRestoresInv | ecx-backend/src/payments/payment-orchestrator.service.ts:293-592 | and on a database on which every accepted answer is handled the whole master invariant holds |
| DeliveryRuns.TwoHandlersChargeTwice | ecx-backend/src/payments/payments.module.ts:19-23 | the two handlers one approval starts, both past their recheck before either writes: two calls, a transaction row, and the intent FAILED |
| DeliveryRuns.DenialDuringTheCall | ecx-backend/src/payments/payment-orchestrator.service.ts:376-379 | a denial accepted and handled while a call is out: EXECUTED with a denied cosign request |
| DeliveryRuns.LateDenialIsReachable | ecx-backend/src/cosign/cosign.service.ts:37-46 | a denial accepted while the request was pending and handled after the payment: VOIDED with a transaction row |
| DeliveryRuns.OverlappingApprovals | ecx-backend/src/payments/payment-orchestrator.service.ts:353-463 | the same on the database, for any two settling replies: the master invariant fails, the key was called twice, the log no longer equals the state, and no credential's spend has changed |
| DeliveryRuns.VoidDuringTheCall | ecx-backend/src/payments/payment-orchestrator.service.ts:353-492 | on the database, for any settling reply: a void during the call leaves EXECUTED beside a denied cosign request and breaks the invariant |
| DeliveryRuns.OverlappingCallsDisagree | ecx-backend/src/payments/mock-payment-provider.service.ts:40-68 | both calls miss the mock's cache before either stores its result: afterwards cache and rows disagree |
| DeliveryRuns.BecomesExecutedOnce | ecx-backend/prisma/schema.prisma:167-176 | however its handlers overlap, an intent becomes EXECUTED at most once, because its transaction row is unique and stays |
| DeliveryRuns.RecordView | ecx-backend/src/payments/payment-orchestrator.service.ts:361-463 | what the layer writes on a reply is what the database records for the intent, and no other intent is touched |
| DeliveryRuns.ResolveIsARun | ecx-backend/src/cosign/cosign.service.ts:37-46 | the atomic resolution is the run of the layer in which one handler finishes before anything else starts |
| DeliveryRuns.LateHandlerIsARun | ecx-backend/src/payments/payment-orchestrator.service.ts:578-592 | a handler that comes late is over at once: an approval of an intent no longer held writes nothing, a denial voids it whatever it has become |
| DeliveryRuns.RequeryIsARun | ecx-backend/src/payments/payment-orchestrator.service.ts:494-576 | the atomic requery is the run in which it reads, is told and writes before anything else starts, and it asks exactly if the intent is ALLOWED and unpaid |
| DeliveryRuns.AnswersComeWhilePending | ecx-backend/src/cosign/cosign.service.ts:37-46 | an answer is accepted only while the request is pending, and a closed request never opens again |
| DeliveryRuns.NothingWithoutAnAnswer | ecx-backend/src/payments/payment-orchestrator.service.ts:578-592 | until an answer is accepted nothing happens to a held intent in any run |
| InitiateRaces.MoveKeepsIff | ecx-backend/src/payments/payment-orchestrator.service.ts:163-569 | for initiate's call and requeries in any order, a move keeps the invariant and moves the status forward if and only if it is guarded: EXECUTED only over ALLOWED, FAILED only over ALLOWED or FAILED, a pending reply only while ALLOWED |
| InitiateRaces.SoundIffOneResult | ecx-backend/src/payments/payment-orchestrator.service.ts:163-569 | for initiate's call and any number of requeries: every state is sound and the status only moves forward if and only if the run does not write both EXECUTED and FAILED and logs no pending reply over a result |
| InitiateRaces.SoundIffNothingEarly | ecx-backend/src/payments/payment-orchestrator.service.ts:163-569 | where the call is written and does not fail: if and only if no requery writes a result while the call is out and the results written after it agree |
| InitiateRaces.SettlesOnce | ecx-backend/prisma/schema.prisma:167-176 | however they overlap, EXECUTED is written at most once |
| InitiateRaces.FailedIntentIsPaid | ecx-backend/src/payments/payment-orchestrator.service.ts:172-189 | a requery hears "not found" while the call is out and writes FAILED; the call settles and writes EXECUTED over it |
| InitiateRaces.FailedIntentIsPending | ecx-backend/src/payments/payment-orchestrator.service.ts:214-230 | the same before a pending reply, which writes no status: the row stays FAILED under a pending log line |
| InitiateRaces.PaidIntentIsFailed | ecx-backend/src/payments/payment-orchestrator.service.ts:234-238 | a requery settles while the call is out; the call's second transaction row is rolled back and its catch marks the paid intent FAILED |
| EarlyRequeries.ReturnView | ecx-backend/src/payments/payment-orchestrator.service.ts:172-255 | what the layer writes on a reply is what initiatePayment writes for the intent, and no other intent is touched |
| EarlyRequeries.InitiateIsARun | ecx-backend/src/payments/payment-orchestrator.service.ts:116-255 | the atomic initiation of an allowed intent is the run in which the call is answered and written before any requery |
| EarlyRequeries.RequeryIsARun | ecx-backend/src/payments/payment-orchestrator.service.ts:494-576 | the atomic requery is the run in which it reads, is told and writes before anything else starts |
| EarlyRequeries.OneResultRestoresInv | ecx-backend/src/payments/payment-orchestrator.service.ts:163-569 | once the call is written, a run with one result has left a database on which the whole master invariant holds |
| EarlyRequeries.MissedRequery | ecx-backend/src/payments/payment-orchestrator.service.ts:551-555 | on the database: FAILED becomes EXECUTED on a settling reply, and stays FAILED and breaks the invariant on a pending one |
| EarlyRequeries.SettledRequery | ecx-backend/src/payments/payment-orchestrator.service.ts:174-238 | on the database: the paid intent ends FAILED with its transaction row, the invariant fails and the log no longer equals the state |
| EarlyRequeries.MissedRequeryDisagrees | ecx-backend/src/payments/mock-payment-provider.service.ts:47-82 | the mock stores a result only when it answers, so an early requery misses: the cache then holds a pending charge beside a FAILED intent |
| EarlyRequeries.SettledRequeryDisagrees | ecx-backend/src/payments/mock-payment-provider.service.ts:67-103 | a requery that reads the stored success before the call writes it leaves a success in the cache beside a FAILED intent |
| SpineSteps.StepShape | ecx-backend/src/payments/payment-orchestrator.service.ts:24-592 | a step opens one intent, moves one intent along an allowed edge, or moves nothing; it calls the provider only for an intent the policy just passed |
| SpineSteps.RevokedFails | ecx-backend/src/payments/payment-orchestrator.service.ts:312-319 | an intent of a revoked credential never passes the recheck |
| SpineRuns.RunIsLater | ecx-backend/src/payments/payment-orchestrator.service.ts:24-592 | over a run rows change nothing but their status, decisions stay, log and answers only grow, revocation stays |
| SpineRuns.ChangesAtMostTwice | ecx-backend/src/payments/payment-orchestrator.service.ts:352-569 | where steps do not overlap, an intent changes status at most twice once created, each time down in rank |
| SpineRuns.RevocationFreezes | ecx-backend/src/accounts/credentials.controller.ts:25-37 | in runs of completed steps no run calls the provider for the credential after a revocation; new intents are DENIED, held ones stay or become VOIDED, only pending charges settle |
| SpineRuns.AnswerIsRecorded | ecx-backend/src/payments/payment-orchestrator.service.ts:116-138 | whatever initiatePayment answers is stored under its key, decision included |
| SpineRuns.ReplayIsInert | ecx-backend/src/payments/payment-orchestrator.service.ts:27-50 | a used key, replayed after any run with any payload, changes nothing and returns the first intent and decision; the made-up decision is never returned |
| SpineSums.LogEqualsState | ecx-backend/src/audit/audit.service.ts:18-42 | per account, after any run whose steps do not overlap, the payment.executed amounts add up to the EXECUTED intents |
| SpineSums.SpentIsMonthTotal | ecx-backend/src/payments/payment-orchestrator.service.ts:64-80 | the aggregate the policy reads is the total of the current month, because no row lies in the future |
| SpineSums.StepWithinCap | ecx-backend/src/payments/payment-orchestrator.service.ts:321-350 | a step raises a month's total only within the cap or by an exempted settlement |
| SpineSums.MonthlyCapHolds | ecx-backend/src/payments/payment-orchestrator.service.ts:64-104 | in every run of completed steps the EXECUTED total created in a month stays within the cap plus what was settled by requery or resumed after the month ended |
| Verdicts.SpendIsCounted | ecx-backend/src/payments/payment-orchestrator.service.ts:64-80 | the spend grows by exactly the executed rows of the credential created since the month began |
| Verdicts.InitiationFollows | ecx-backend/src/payments/payment-orchestrator.service.ts:24-291 | a new input is answered as the rules say of its own biller, recipient, channel and amount; its row, call, cosign request, transaction and log line follow, or nothing is left if the row cannot be stored |
| Verdicts.UnknownIsRefused | ecx-backend/src/payments/payment-orchestrator.service.ts:52-60 | an unknown credential is refused and nothing is left of the input |
| Verdicts.ApprovalFollows | ecx-backend/src/payments/payment-orchestrator.service.ts:293-592 | an approved intent is charged exactly if its rules are kept by then and voided otherwise, a denied one is voided; row, call, cosign row, transaction and log line follow |
| Verdicts.ResumeSays | ecx-backend/src/payments/payment-orchestrator.service.ts:293-350 | a resume is done exactly if the intent is held and nothing is broken; otherwise it says that there is none, that it is not held, that its credential is revoked, or exactly which of its rules are broken |
| Verdicts.RequeryFollows | ecx-backend/src/payments/payment-orchestrator.service.ts:494-576 | a requery of a pending charge leaves it paid, failed or as it was, with the transaction and the log line of each |
| Verdicts.OthersSay | ecx-backend/src/payments/payment-orchestrator.service.ts:466-576 | a void and a requery fail exactly for an unknown intent, and where a requery has nothing to do it touches nothing |
| Verdicts.RevocationFollows | ecx-backend/src/accounts/credentials.controller.ts:25-37 | a revocation marks its credential, adds one line in the owner's name and changes nothing else |
| Verdicts.RunsArePermitted | ecx-backend/src/payments/payment-orchestrator.service.ts:83-104 | in every state of every run whose steps do not overlap, a payment ever charged or held has a positive amount within every per-payment cap, a biller absent or on every allowlist, a recipient absent or in every lock, a channel in every scope, and was held exactly if above a threshold |
| MockProvider.PaymentResult.constructor | ecx-backend/src/payments/mock-payment-provider.service.ts:60-61 | a result object with the given status, reference, token and error |
| MockProvider.MockPaymentProvider.constructor | ecx-backend/src/payments/mock-payment-provider.service.ts:7-8 | an empty cache |
| MockProvider.MockPaymentProvider.Execute | ecx-backend/src/payments/mock-payment-provider.service.ts:34-71 | a cached key returns the stored object itself; a new key stores and returns a fresh result whose status follows the last two digits, with a token for a successful electricity payment |
| MockProvider.MockPaymentProvider.RequeryStatus | ecx-backend/src/payments/mock-payment-provider.service.ts:73-103 | a pending entry is settled in place with a new token, other entries are only read, an unknown key is "not found" |
| MockLaws.StatusByLastDigits | ecx-backend/src/payments/mock-payment-provider.service.ts:51-56 | a charge stays pending exactly if its amount, written out, ends in 99 and fails exactly if it ends in 98 |
| MockLaws.NewKeyGets | ecx-backend/src/payments/mock-payment-provider.service.ts:34-71 | a new key gets the reference drawn for it, an error exactly if it fails, and a token exactly if it succeeds and the biller id names electricity in whatever case |
| MockLaws.KnownKeyGets | ecx-backend/src/payments/mock-payment-provider.service.ts:40-103 | a known key gets what is stored whatever comes with it; a requery settles a pending one once, under its own reference, and an unknown key fails |
| Agreement.ExecutedAtMostOncePerKey | ecx-backend/src/payments/payment-orchestrator.service.ts:163-170 | where the invariant holds, execute was called once for a key iff its intent is ALLOWED, EXECUTED or FAILED, and otherwise never |
| Agreement.MockStepIsStep | ecx-backend/src/payments/mock-payment-provider.service.ts:34-103 | a step against the mock is a step of the spine with the mock's reply |
| Agreement.AnswersAreTheSpines | ecx-backend/src/payments/payment-orchestrator.service.ts:163-170 | what a caller is answered against the mock is what the spine answers on the mock's reply |
| Agreement.MockRunIsRun | ecx-backend/src/payments/mock-payment-provider.service.ts:34-103 | so every result over runs holds for runs against the mock |
| Agreement.MockRunAgrees | ecx-backend/src/payments/mock-payment-provider.service.ts:34-103 | in every run whose steps do not overlap the cache holds exactly the charged keys, pending iff ALLOWED, with a token for a success exactly if the biller is electricity, and an EXECUTED intent's transaction carries the cached reference and token |
| Agreement.RequerySettles | ecx-backend/src/payments/payment-orchestrator.service.ts:508-528 | where no call is out, one requery ends any ALLOWED intent EXECUTED with the reference of its cache entry, and "not found" cannot come back |
| Services.Database.UpdateStatus | ecx-backend/src/payments/payment-orchestrator.service.ts:175-178 | one row's status is set, in place, and nothing else |
| Services.Database.ClosePendingCosign | ecx-backend/src/payments/payment-orchestrator.service.ts:376-379 | the intent's cosign row is closed only if it is pending |
| Services.Database.CreateTransaction | ecx-backend/src/payments/payment-orchestrator.service.ts:180-186 | one transaction row is added, without a token where the provider gave none |
| Services.AuditService.Log | ecx-backend/src/audit/audit.service.ts:18-42 | one event is appended and none is changed |
| Services.CredentialsController.RevokeCredential | ecx-backend/src/accounts/credentials.controller.ts:25-37 | an existing credential is revoked and logged, an unknown one is reported and nothing changes |
| Services.PaymentOrchestratorService.Charge | ecx-backend/src/payments/payment-orchestrator.service.ts:162-255 | one provider call and everything written on its reply |
| Services.PaymentOrchestratorService.CommitIntent | ecx-backend/src/payments/payment-orchestrator.service.ts:116-160 | all rows of the transaction, or none where a constraint fails or no contact is configured |
| Services.PaymentOrchestratorService.InitiatePayment | ecx-backend/src/payments/payment-orchestrator.service.ts:24-291 | rows, cache and answer are those of the specification that the results over runs are about |
| Services.PaymentOrchestratorService.Recheck | ecx-backend/src/payments/payment-orchestrator.service.ts:312-350 | a held intent goes on unchanged exactly when it passes the policy now; otherwise it is voided with the matching error |
| Services.PaymentOrchestratorService.ResumeIntent | ecx-backend/src/payments/payment-orchestrator.service.ts:293-464 | rows, cache and outcome of a resume, with all four errors |
| Services.PaymentOrchestratorService.VoidIntent | ecx-backend/src/payments/payment-orchestrator.service.ts:466-492 | rows and outcome of a void, an unknown intent included; the provider is not touched |
| Services.PaymentOrchestratorService.RequeryIntent | ecx-backend/src/payments/payment-orchestrator.service.ts:494-576 | rows, cache and outcome of a requery; the cache keeps its objects |
| Services.PaymentOrchestratorService.HandleCosignResolved | ecx-backend/src/payments/payment-orchestrator.service.ts:578-592 | an approval resumes and swallows its errors, a denial voids |
| Services.CosignService.ResolveRequest | ecx-backend/src/cosign/cosign.service.ts:37-46 | a pending request is handled once and to completion, a missing or closed one is refused and nothing changes |
| Race.JudgePasses | ecx-backend/src/policy/policy.service.ts:50-70 | a payment that passes its check is positive and fits under both caps on the spend it read |
| Race.StepIsSound | ecx-backend/src/payments/payment-orchestrator.service.ts:64-190 | every interleaved step keeps: what is exposed passed its checks, a row fits its column, EXECUTED only when the payment is over |
| Race.ReadCoversPaid | ecx-backend/src/payments/payment-orchestrator.service.ts:64-80 | the spend a check reads covers everything already paid of the month |
| Race.StepWithinBound | ecx-backend/src/payments/payment-orchestrator.service.ts:64-104 | only a passed check raises paid plus unsettled, and then within the bound |
| Race.OvershootIsBounded | PROJECT.md:193 | if at most n payments of a credential's month are unsettled at once, paid plus unsettled stays within cap + (n - 1) * largest in every interleaving, largest being a per-payment cap, the monthly cap itself or 2^31 - 1, the most the amount column holds |
| Race.OvershootUnderBothCaps | PROJECT.md:193 | with a per-payment cap as well, the bound is cap + (n - 1) * min(perTx, cap, 2^31 - 1) |
| Race.OvershootUnderMonthlyCap | PROJECT.md:193 | without one the bound is cap + (n - 1) * min(cap, 2^31 - 1) |
| Race.KeysAreUnique | ecx-backend/prisma/schema.prisma:147-147 | however initiations of one key overlap, at most one of them has a row |
| Race.ReplayIsNoAttempt | ecx-backend/src/payments/payment-orchestrator.service.ts:27-60 | a key that has a row is answered by replay and an unknown credential is refused: neither makes a payment |
| Race.CommitDatesTheRow | ecx-backend/src/payments/payment-orchestrator.service.ts:116-160 | a commit dates the row by the clock of that moment, not of the check; where key or amount do not fit, the payment is over without a row |
| Race.RolledBackIsGone | ecx-backend/src/payments/payment-orchestrator.service.ts:116-160 | a payment whose row was rolled back has no row and asks for no money, in every run that follows |
| Race.MonthIsBounded | ecx-backend/src/payments/payment-orchestrator.service.ts:64-80 | paid plus unsettled of the intents created in any month stays within the bound plus what was checked against another month |
| Race.RevocationStopsAllButChecked | ecx-backend/src/payments/payment-orchestrator.service.ts:312-350 | after a revocation, in every interleaving, only payments already past their check or paid are or become EXECUTED |
| Race.OneAtATimeIsExact | PROJECT.md:193 | with one payment at a time the cap is exact |
| Race.OneMonthIsBounded | PROJECT.md:193 | while the clock stays in one month the bound covers everything the credential ever paid or may still pay |
| RaceIsTight.BoundIsReached | PROJECT.md:193 | for any positive caps up to 2^53 - 1, with or without a per-payment cap, and any n some interleaving with at most n in flight, each payment under a key of its own, executes exactly cap + (n - 1) * min(perTx, cap, 2^31 - 1) |
| AtomicRuns.StepIsMoves | ecx-backend/src/payments/payment-orchestrator.service.ts:24-592 | every step of the spine is a run of interleaved moves that ends in the same rows |
| AtomicRuns.RunIsAnInterleaving | ecx-backend/src/payments/payment-orchestrator.service.ts:24-592 | every run of the spine is one of the interleavings that the race bound is about |
| Statistics.SpreadIsVariance | ecx-backend/src/anomaly/anomaly.service.ts:52-54 | the integer n * sum of squares - square of sum is n^2 times the mean squared distance from the mean |
| Statistics.ShiftedCentre | ecx-backend/src/payments/context-query.service.ts:276-281 | n times the squares around any point are the spread plus the squared error of the point as a mean |
| ContextQuery.MeanIsNearest | ecx-backend/src/payments/context-query.service.ts:273-274 | the stored mean is off by at most a half |
| ContextQuery.VarianceWithinQuarter | ecx-backend/src/payments/context-query.service.ts:276-281 | the stored variance lies between the population variance and that plus a quarter |
| ContextQuery.GapsTelescope | ecx-backend/src/payments/context-query.service.ts:285-294 | the consecutive gaps add up to the time from the first payment to the last |
| ContextQuery.IntervalIsMeanGap | ecx-backend/src/payments/context-query.service.ts:283-294 | the stored interval is the mean gap in days |
| ContextQuery.HabitSays | ecx-backend/src/payments/context-query.service.ts:268-319 | each field of a habit row: the mean within a half, the variance within a quarter, the interval from the second payment on, the date of the payment created last |
| ContextQuery.SummarizeMonth | ecx-backend/src/payments/context-query.service.ts:197-215 | each biller seen has one group with its own count and total, and groups plus transfers give the month's total and count |
| ContextQuery.ContextQueryService.HandleIntentExecuted | ecx-backend/src/payments/context-query.service.ts:248-320 | the habit row of the pair becomes the statistics of its executed payments, no other row changes, no row without a biller or payment |
| HabitCache.HabitsAgreeWithPayments | ecx-backend/src/payments/context-query.service.ts:248-320 | after any run in which each handler finishes before the next step, a habit row exists exactly for the pairs with an EXECUTED payment and holds the statistics of all of them |
| HabitCache.PaidListIsThere | ecx-backend/src/payments/context-query.service.ts:254-266 | the list behind a row is the amounts and dates of exactly the executed payments of the account to the biller, in order of creation |
| HabitCache.OtherPairsKeep | ecx-backend/src/payments/context-query.service.ts:254-266 | a step that executed nothing of a pair leaves the pair's list of payments as it was |
| HabitRaces.RowIsCurrentIff | ecx-backend/src/payments/context-query.service.ts:253-319 | with overlapping handlers and payments that leave EXECUTED, the row is computed from exactly the executed payments if and only if no payment that the last writer had read has left since and every payment executed since has left again |
| HabitRaces.OvertakenHandlerLeavesAStaleRow | ecx-backend/src/payments/context-query.service.ts:253-319 | two handlers that write in the other order than they read leave a row that misses a payment |
| HabitRaces.DepartedPaymentStaysInTheRow | ecx-backend/src/payments/context-query.service.ts:248-260 | a payment that leaves EXECUTED after its handler has run stays in the habit row, with no handler late |
| Anomaly.ScoreAmount | ecx-backend/src/anomaly/anomaly.service.ts:50-68 | mean, variance and the branches on z give the score, compared on squares |
| Anomaly.FindRecipient | ecx-backend/src/anomaly/anomaly.service.ts:20-35 | the loop finds whether some other executed intent of the account went to the recipient |
| Anomaly.FindAmounts | ecx-backend/src/anomaly/anomaly.service.ts:41-51 | the loop collects the amounts of the account's other executed intents with the biller, in order |
| Anomaly.ConstantIffNoSpread | ecx-backend/src/anomaly/anomaly.service.ts:56-59 | the zero-deviation branch is taken exactly when all previous amounts are equal |
| Anomaly.OrderIsIrrelevant | ecx-backend/src/anomaly/anomaly.service.ts:51-67 | the score depends only on the multiset of previous amounts |
| Anomaly.ShiftIsIrrelevant | ecx-backend/src/anomaly/anomaly.service.ts:51-67 | adding one constant to all amounts keeps the score |
| Anomaly.ExtremesAreRare | ecx-backend/src/anomaly/anomaly.service.ts:61-63 | of n payments measured against that same history fewer than n/9 score 1.0, or none does |
| Anomaly.ScoreIsByDeviations | ecx-backend/src/anomaly/anomaly.service.ts:50-68 | 1.0 beyond 3 deviations from the mean of the earlier amounts, 0.5 beyond 1.96, nothing on fewer than three of them |
| Anomaly.ConstantHistory | ecx-backend/src/anomaly/anomaly.service.ts:56-59 | after three or more equal amounts any other amount scores 1.0 and the same one nothing |
| Anomaly.AnomalyService.HandleIntentExecuted | ecx-backend/src/anomaly/anomaly.service.ts:10-110 | a flag with the three factors, computed from the account's earlier executed intents, is appended exactly when one of them is positive |
| AnomalyRuns.RecipientIsNew | ecx-backend/src/anomaly/anomaly.service.ts:16-36 | the recipient factor is 1.0 exactly if the intent has a recipient and no intent with another id is executed for the account with that recipient |
| AnomalyRuns.HistoryIsThere | ecx-backend/src/anomaly/anomaly.service.ts:40-51 | the history is the amounts at exactly the places of the account's other executed payments to the biller, in order |
| AnomalyRuns.OwnRowIsIrrelevant | ecx-backend/src/anomaly/anomaly.service.ts:43-43 | neither the amount nor the status of the current row changes its history |
| AnomalyRuns.FlagSays | ecx-backend/src/anomaly/anomaly.service.ts:10-110 | one flag is raised exactly if the recipient is new, the hour is known and from 23 to 5, or the amount scores; it carries the three factors and scores 1.0 if one of them does |
| AnomalyRuns.FirstPaymentIsFlagged | ecx-backend/src/anomaly/anomaly.service.ts:10-110 | over runs, the first payment of an account to a recipient is flagged with 1.0, and one that follows an executed payment to the same recipient is not flagged for it |
| PinLock.AuthService.VerifyPin | ecx-backend/src/auth/auth.service.ts:41-67 | the lock map and the answer after a PIN check no other check of the user overlaps, the user's lock object updated in place |
| PinLock.AuthService.Begin | ecx-backend/src/auth/auth.service.ts:42-43 | None exactly while the lock holds, else the very object in the map, or a new one that is not stored |
| PinLock.AuthService.Finish | ecx-backend/src/auth/auth.service.ts:53-66 | the object taken at the guard is counted and stored, or the entry deleted, wherever the map points by then |
| PinLock.GuessesAreSpaced | ecx-backend/src/auth/auth.service.ts:41-67 | checks one at a time and without a right PIN: from the fourth compared guess on each comes at least a lock period after the one before |
| PinLock.GuessRate | ecx-backend/src/auth/auth.service.ts:15-16 | checks one at a time: the k-th compared guess comes at least (k - 3) lock periods after the third |
| PinLock.GuessesPerWindow | ecx-backend/src/auth/auth.service.ts:15-16 | checks one at a time: any window of W ms compares at most 3 + W / LOCK_MS guesses |
| PinAnswers.AnswersFollow | ecx-backend/src/auth/auth.service.ts:41-67 | over runs of checks one at a time: ok exactly if compared and the PIN matches, locked exactly if not compared or the third or a later miss since the last right PIN |
| PinAnswers.LogIsTallied | ecx-backend/src/auth/auth.service.ts:53-66 | the entry in the lock map is the misses since the last right PIN and the end of their lock period, told from the log of answers |
| PinAnswers.LockPeriodRefuses | ecx-backend/src/auth/auth.service.ts:43-43 | in the lock period after a third miss every check answers locked and not ok, whatever its PIN |
| PinRaces.OverlappingGuessesPerWindow | ecx-backend/src/auth/auth.service.ts:41-67 | with at most k checks of the user under way and no right PIN, any window of W ms compares at most k * (k + 5) / 2 + k * (W / LOCK_MS) guesses |
| PinRaces.SeparateGuessesPerWindow | ecx-backend/src/auth/auth.service.ts:15-16 | checks that do not overlap are the case k = 1: at most 3 + W / LOCK_MS |
| PinRaces.FinishLooseRoom | ecx-backend/src/auth/auth.service.ts:58-65 | storing an object that another one had replaced never lets more guesses through than were left |
| PinRaces.LateInWindow | ecx-backend/src/auth/auth.service.ts:43-60 | once objects are locked, at most k guesses are compared in each lock period |
| PinRacesTight.BoundIsReached | ecx-backend/src/auth/auth.service.ts:41-67 | for every k and W some run with at most k checks under way compares exactly that many |
| PinRacesTight.SimultaneousGuessesAreAllCompared | ecx-backend/src/auth/auth.service.ts:42-65 | n simultaneous wrong guesses for a user without an entry are all compared, and the lock counts one |
| PinDesks.BeginGuards | ecx-backend/src/auth/auth.service.ts:42-43 | on the service Begin is the guard of the overlapping model: it compares exactly if the desk does, and the check then holds the stored object or a new one |
| PinDesks.FinishFinishes | ecx-backend/src/auth/auth.service.ts:53-66 | Finish on whichever object the check holds is the finish of the overlapping model |
| PinDesks.SeparateChecksAreARun | ecx-backend/src/auth/auth.service.ts:41-67 | guesses one at a time are a run with at most one check under way that compares the same guesses and leaves the same entry |
| PinDesks.ChecksAreInOrder | ecx-backend/src/auth/auth.service.ts:41-67 | and its moves are in order and never right where the guesses are |
| SessionKeys.KeyReadsBack | ecx-backend/src/agent/agent.service.ts:201-201 | channel, session and turn are read back from the key text, also from session ids with colons |
| SessionKeys.KeysAreInjective | ecx-backend/src/agent/agent.service.ts:201-201 | equal key texts come from the same channel, session and turn |
| AgentSession.WindowMessages | ecx-backend/src/agent/agent.service.ts:309-317 | the loop that shifts to the first user message computes the window |
| AgentSession.WindowIsSendable | ecx-backend/src/agent/agent.service.ts:303-317 | the window of a paired conversation is the system message and a paired suffix from a user message on, at most 15 long |
| AgentSession.CurrentTurnIsSeen | ecx-backend/src/agent/agent.service.ts:309-317 | the window ends with the current turn exactly if that has at most 14 messages; otherwise it is the system message alone |
| AgentSession.WithoutSystem | ecx-backend/src/agent/agent.service.ts:309-317 | a long list that does not start with a system message is cut at the first user message of the last 14 and keeps nothing before it |
| AgentSession.AgentService.Dispatch | ecx-backend/src/agent/agent.service.ts:130-136 | a round appends the call and its results in order, and each dispatched payment takes the next turn for its key |
| AgentSession.AgentService.RunRounds | ecx-backend/src/agent/agent.service.ts:126-148 | at most six rounds; conversation, turn, every list sent, every key minted, and how it ended |
| AgentSession.AgentService.Begin | ecx-backend/src/agent/agent.service.ts:108-122 | the stored conversation unless absent or expired, a system message if it is empty, then the user message |
| AgentSession.AgentService.Save | ecx-backend/src/session/session.store.ts:24-36 | a save sets state and expiry; a failing one leaves the store as it was |
| AgentSession.AgentService.HandleMessage | ecx-backend/src/agent/agent.service.ts:108-148 | store, lists sent and keys minted by one message, and that it sends well; nothing is saved when the model was unreachable |
| AgentSession.VisitKeepsStoreValid | ecx-backend/src/agent/agent.service.ts:126-148 | every message keeps all stored conversations paired |
| AgentSession.SentIsSendable | ecx-backend/src/agent/agent.service.ts:127-127 | the window of the conversation before any round of any session is a list the model API accepts |
| AgentSession.SentShowsTheTurn | ecx-backend/src/agent/agent.service.ts:127-127 | that window ends with the whole current turn exactly while the turn has at most 14 messages |
| AgentSession.SentListsAreWell | ecx-backend/src/agent/agent.service.ts:126-128 | as many lists are sent as requests made; the k-th is a transcript of at most 15 messages, sendable for the conversation before round k, all of it if that has at most 15 and else cut at the first user message of the last 14, and ends with the current turn exactly while that has at most 14 |
| AgentSession.VisitGoesWell | ecx-backend/src/agent/agent.service.ts:108-148 | a message on properly stored sessions leaves them so and sends well, whatever the model answers |
| AgentSession.TurnLengthBound | ecx-backend/src/agent/agent.service.ts:126-136 | r rounds of at most c calls make a turn of at most 1 + r * (1 + c) messages |
| AgentSession.ShortTurnsAreSeen | ecx-backend/src/agent/agent.service.ts:126-136 | if 1 + r * (1 + c) <= 14, the list sent after r rounds of at most c calls ends with the whole current turn |
| AgentSession.OneCallPerRoundIsSeen | ecx-backend/src/agent/agent.service.ts:126-136 | with one call per round every list sent ends with the whole current turn |
| AgentSession.ManyCallsHideTheTurn | ecx-backend/src/agent/agent.service.ts:309-317 | the list sent after one round of thirteen or more calls is the system message alone |
| Conversations.MessageIsKept | ecx-backend/src/agent/agent.service.ts:108-148 | a saved message leaves the conversation it found, the user message, one assistant message with its results for each round and the reply, for half an hour; otherwise the store is as it was |
| Conversations.SavedIsFound | ecx-backend/src/session/session.store.ts:18-36 | a saved session is found up to its expiry and is as good as absent from then on |
| Conversations.SavedTurnCounts | ecx-backend/src/agent/agent.service.ts:194-205 | a saved message counts each call that dispatched a payment, on top of what it found |
| FreshKeys.TurnCountsKeys | ecx-backend/src/agent/agent.service.ts:194-205 | messages one at a time: the stored turn never exceeds the number of keys minted and equals it exactly while no count was lost |
| FreshKeys.KeysAreFreshIffNothingLost | ecx-backend/src/agent/agent.service.ts:194-205 | messages one at a time: the payments carry different keys, numbered 1, 2, 3 and on, if and only if no message pays after a lost save, an unreachable model or an expiry dropped the count |
| FreshKeys.SavedSessionsStayFresh | ecx-backend/src/session/session.store.ts:18-36 | messages one at a time: while the session does not expire and paying messages are saved, all keys are different |
| FreshKeys.AnUnreachableModelRepeatsAKey | ecx-backend/src/agent/agent.service.ts:126-148 | a concrete run in which two payments carry the same key |
| FreshKeys.OneMessageMayPayAnyNumber | PROJECT.md:39 | for every n some message dispatches n payments under n keys |
| KeyRaces.CountsAreKept | ecx-backend/src/agent/agent.service.ts:194-205 | for any overlap of a session's messages a message's or the row's count is the number of keys minted exactly if it is current, and never larger |
| KeyRaces.KeysAreFreshIffNoneIsStale | ecx-backend/src/agent/agent.service.ts:108-205 | for any overlap the keys are all different, and then count 1, 2, 3 and on, if and only if every message that mints loaded an unexpired row saved by a current message after which nothing was minted, and no other message minted since |
| KeyRaces.OverlappingMessagesRepeatAKey | ecx-backend/src/agent/agent.service.ts:108-205 | two messages load before either has saved and mint the same key; no save fails and nothing expires |
| KeyRaces.QuietMessageRepeatsAKey | ecx-backend/src/agent/agent.service.ts:108-205 | a message that pays nothing saves its older count over a payment's, and the key comes back |
| KeyRaces.VisitsAreRuns | ecx-backend/src/agent/agent.service.ts:108-148 | messages one at a time are the runs whose keys and stored count FreshKeys is about |
| Speech.EscapeReadsBack | ecx-backend/src/voice/at-response.ts:11-13 | unescaping an escaped text gives the text (XML 1.0 section 4.6) |
| Speech.EscapedIsClean | ecx-backend/src/voice/at-response.ts:11-13 | escaped text holds no raw delimiter, and every & in it starts one of the five entities (XML 1.0 section 2.4) |
| Speech.SayReadsBack | ecx-backend/src/voice/at-response.ts:25-27 | voice and text are read back from a Say element, whatever they hold |
| Speech.ResponseReadsBack | ecx-backend/src/voice/at-response.ts:81-83 | a response of Say elements is read back as exactly those elements |
| Speech.RowSpeaks | ecx-backend/src/voice/at-response.ts:89-93 | place by place: the k-th digit, a space between digits, a comma after every fourth |
| Speech.SpeechKeepsDigits | ecx-backend/src/voice/at-response.ts:89-93 | the digits heard are the token's digits, and speaking spoken digits changes nothing |
| Speech.Generate20DigitToken | ecx-backend/src/payments/mock-payment-provider.service.ts:115-124 | the twenty digits in order with a space after every fourth but the last |
| Speech.QuadsAreSpoken | ecx-backend/src/voice/at-response.ts:89-93 | any groups of four digits printed with spaces are cut back into those groups |
| Speech.TokenIsSpokenInItsGroups | ecx-backend/src/payments/mock-payment-provider.service.ts:115-124 | a generated token is its five groups of four, and is spoken as exactly these |

## Left out

- Fractional amounts: amounts are integers, so the `Number.isInteger` half of the first guard is not modelled.
- Detail texts of reasons, `evaluatedAt`, `meta`, `byUserId` and reason strings of void events: they decide nothing.
- Floating point in the statistics: means, variances and intervals are exact quotients, and the thresholds on z are compared on squares instead of roots.
- `Intl.DateTimeFormat` and time zones: the hour is a function of the zone that may fail; the three window branches are modelled.
- Prisma and Postgres beyond foreign keys, unique keys, rollback of a failed transaction and the width of the amount column; failing database or audit writes; restarts.
- Rows with the same creation time: creation order is insertion order.
- SpineInvariant.RunKeeps: is about steps that do not overlap; for those that do see DeliveryRuns.SoundIffOneOutcome and InitiateRaces.SoundIffOneResult.
- SpineInvariant.ResolveKeeps: one handler finishes inside the step, where the source starts two and returns; see DeliveryRuns.SoundIffOneOutcome.
- SpineInvariant.RedeliveryIsInert: is about a delivery that starts after an earlier one has finished; see DeliveryRuns.TwoHandlersChargeTwice.
- SpineInvariant.StepKeeps: is about steps that run to completion; see Deliveries.MoveKeepsIff and InitiateRaces.MoveKeepsIff.
- SpineRuns.ChangesAtMostTwice: is about steps that do not overlap; InitiateRaces.FailedIntentIsPaid moves FAILED to EXECUTED, DeliveryRuns.TwoHandlersChargeTwice EXECUTED to FAILED.
- SpineRuns.RevocationFreezes: is about steps that run to completion; see Race.RevocationStopsAllButChecked.
- SpineSums.LogEqualsState: is about steps that do not overlap; see DeliveryRuns.OverlappingApprovals and EarlyRequeries.SettledRequery.
- Agreement.ExecutedAtMostOncePerKey: assumes the invariant, which overlapping handlers break; see DeliveryRuns.SoundIffOneOutcome.
- Agreement.MockRunAgrees: is about steps that do not overlap; see DeliveryRuns.OverlappingCallsDisagree and EarlyRequeries.MissedRequeryDisagrees.
- Agreement.RequerySettles: assumes that no call is out; a requery during initiate's call does hear "not found", see EarlyRequeries.EarlyRequeryMisses.
- Race.OvershootIsBounded: bounds EXECUTED rows and payments under way, with one operation at a time on an intent; two handlers of one approval pay twice for a row that ends FAILED, see DeliveryRuns.OverlappingApprovals.
- Services.CosignService.ResolveRequest: handles the answer once and to completion inside the call, where the source starts two handlers and returns.
- HabitCache.HabitsAgreeWithPayments: each handler and each step finishes before the next; see HabitRaces.RowIsCurrentIff.
- PinLock.GuessesAreSpaced: checks of a user do not overlap; see PinRaces.OverlappingGuessesPerWindow.
- PinLock.GuessRate: checks of a user do not overlap; see PinRaces.OverlappingGuessesPerWindow.
- PinLock.GuessesPerWindow: checks of a user do not overlap; see PinRaces.OverlappingGuessesPerWindow.
- FreshKeys.TurnCountsKeys: messages of a session do not overlap; see KeyRaces.CountsAreKept.
- FreshKeys.KeysAreFreshIffNothingLost: messages of a session do not overlap; see KeyRaces.KeysAreFreshIffNoneIsStale.
- FreshKeys.SavedSessionsStayFresh: messages of a session do not overlap; see KeyRaces.KeysAreFreshIffNoneIsStale.
- Between the writes of one result: in `Deliveries.dfy` the status, the cosign row, the transaction row and the log line of one result are written in one step; the reads, the call and the write are separate.
- The model's conversation when messages of one session overlap: `KeyRaces.dfy` follows the count only, the stored messages are overwritten with it.
- Overlapping initiations of one key: in `Race.dfy` the second row is rolled back; the error its caller gets is not modelled.
- Inside one policy check: in `Race.dfy` the reads of a check and its verdict are one step, and one operation at a time works on an intent, so a revocation between the credential read and the verdict is not modelled.
- `isElectricityBiller` folds the case of ASCII letters only.
- Contents of conversation messages, the language model, speech recognition, argon2, JWT and AES-GCM: foreign calls.
- Biller name matching, `resolveContext`, `register`, `VoiceController`, `getDigits`, `record`, `play`, `callbackUrl`: easy branches that add no hard property.
- The sentence that `summarizeMonth` formats from its totals, `getPolicySummary`, `listRecentTransactions`, `readLastToken`: read-only formatting.
- Cosign expiry and notifications: documented, not in the code.
- Frontend, NestJS modules and guards, DTO validation, sockets, the demo scenarios, the seed, `FakePaymentOrchestrator`: wiring, scripts and stand-ins.
- `Services` models the database as one object that the services share; emitted events other than `cosign.resolved` and the executed event are not modelled.
