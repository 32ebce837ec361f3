# Verified model of FundReady's stateful protocols and codecs

This project models the parts of FundReady whose correctness depends on every
interleaving, every way of cutting a stream, or every string, and proves what they
keep:

- **Token refresh** on the mobile and web clients, against a server that rotates
  refresh tokens and revokes the family when one is presented twice
  (`MobileTokens`, `MobileReuse`, `MobileSessions`, `WebSession`).
- **The server-sent-event reader** of the web client: independence of chunking,
  the round trip with the serialiser, and exactly where it follows the HTML Living
  Standard, sections 9.2.5 and 9.2.6 (`SseStream`, `SseConformance`).
- **The audit job**: a lease, a conditional UPDATE, a billed pass outside any
  transaction, and best-effort recording (`AuditRuns` for all interleavings,
  `AuditBilling` for what they bill, `AuditRetries` for the cap on resubmissions,
  `AuditHandler` for one delivery from top to bottom); and the **grading of
  evidence** with its attempt cap (`EvidenceGrading`, `EvidenceOverlap`,
  `EvidenceCounter`, `EvidenceOutcome`).
- **AI spend and request limits** over Redis counters: the ledger of one call, the
  daily budget, and the fixed-window limiter (`AiLedger`, `AiBudget`, `RateLimit`,
  `Redis`).
- **One-time passwords**: the browser's base32, truncation and counter against
  RFC 4648 section 6, RFC 4226 section 5.3 and RFC 6238, and the server's drift
  window and replay rule (`Base32`, `Int32`, `Totp`, `SecondFactor`).
- **Profile codecs**: the web and mobile forms to the stored profile and back, over
  exact decimals printed and read with JavaScript's number syntax (`Decimals`,
  `NumberSyntax`, `ProfileWire`, `WebProfile`, `MobileProfile`); what the payloads say
  in real numbers, and one client against the other (`DecimalValues`,
  `ProfileMeaning`, `ClientsAgree`).
- **Fenced prompt text** and a reader that takes it apart (`Fences`); **mail domain
  lists** on the server and the mobile client (`EmailDomains`).

`Wrappers`, `Text` and `Numerals` hold the option type, string operations and digit
strings the others share.

Code that updates variables in place is a class (`MobileClient`, `WebClient`,
`AuditRun`, `TaskRecord`, `Redis.Server`, `UserRow`) or a method with loops; each
method's postcondition gives its whole new state as a function of the old one, and
the theorems about all runs are stated over those same functions.

## Where the code and its documentation differ

The model follows the code. The differences are stated as theorems:

- **Rotation.** Reuse detection can turn on the mobile client itself: losing a reply
  leads to it exactly when that reply is the successor of the token the client still
  holds, and a token is presented twice exactly when it is any answer for that token
  (`LosingAReplyIsSafeExactly`); the next refresh then revokes the family
  (`LostReplyRevokesTheFamily`). A pair lost after the tokens were cleared or replaced
  is harmless. A refresh in flight when the user signs out
  can install tokens again, exactly when it still has a pair to bring home or holds
  a token the server would rotate (`SignOutIsUndoneExactlyByHopefulExchanges`).
- **Unauthorized handler.** It fires once per logout, not once per session: signing
  in does not start a new epoch (`FiresOncePerEpoch`, `FiresOnceUntilLogout`).
- **Event stream.** CRLF line ends, which the standard allows, deliver nothing
  (`CrlfStreamDeliversNothing`); a line is read as the standard reads it exactly
  when it is `Plain` (`LineConforms`).
- **One billed pass.** It holds exactly when nothing may reopen a run
  (`OnePassExactlyIfNothingReopens`), and the code allows all three ways: a failed
  run is claimable, so a redelivery after a recorded failure bills again
  (`RedeliveryAfterFailureBillsAgain`). A claim that raises
  records a failure over whatever the row says (`RaisingClaimReopensAFinishedAudit`);
  two resubmissions that both read a failed row break exclusion
  (`DoubleRetryBreaksExclusion`). `ForeignWriteIsSafeIffHarmless` gives the exact
  condition such a write would have to check. An error while storing a finished
  report, and nothing else, escapes to the queue (`AuditHandler.RunAudit`). The cap of
  three attempts on resubmissions is kept exactly when they follow one another
  (`ResubmissionsAreCapped`).
- **Evidence: "nothing to race over".** Two overlapping gradings both find the
  submission pending; both are charged and one charge is lost
  (`OverlapRegradesAndLosesACharge`). With k gradings at a time the cap of three can
  be charged 3k times (`InterleavedRecordingsDefeatTheCap`), and the promises hold
  only without overlap (`PromisesHoldExactlyWithoutOverlap`). The stored counter by
  itself keeps to the cap plus the overlap for one or two gradings at a time and for
  no more, since a stale recording lowers it (`CounterStaysNearExactlyForPairs`).
- **Passed tasks.** A passed task takes no more submissions, but a redelivery that
  raises before it has looked at anything opens it again (`RaisingDeliveryReopens`,
  `PassedStaysPassed`).
- **Usage "recorded on failures".** `complete` does not charge a last request that
  itself raised; `stream_text` does. The exact amount is a postcondition of
  `Complete`.
- **Limiter.** The tight bound on any window-long interval is `2 * max - 1`, one less
  than twice, and `max` for a window of one unit of time (`WindowAdmitsLessThanTwice`,
  `TwiceLessOneIsReached`).
- **Secrets.** "Skip what is not in the alphabet" is not the whole of it: characters
  beyond ASCII whose capitals are ASCII letters are read as those letters
  (`InsertionIsHarmlessIffSilent`).
- **One-time codes.** A code of an unused step is refused when an earlier step of
  the window has the same code and is used (`CollisionRefusesAnUnusedStep`).
- **Mobile stages.** Loading and saving turns `idea` into `pre_seed` and
  `series_b_plus` into `series_a` (`TwoStagesAreChanged`); a number nobody can read
  is dropped without a report (`LostOnlyIfUnreadable` says exactly when).
- **Domain lists.** The server's loop never tries a suffix of one label
  (`OneLabelIsNeverTried`), so it agrees with the dotted-suffix test exactly on lists
  without such entries (`RulesAgreeExactly`). Of an address with two at signs the two
  sides read different pieces (`TwoAtSignsAreReadApart`).

## Model

| member | source | states |
|---|---|---|
| `SseStream.ReadStream` | web/lib/api/http.ts:237-260 | for every text and every way of cutting it into chunks, the events handed over and the final payload are those of splitting the whole text once at blank lines and dropping the unterminated tail; a payload that does not parse stops the stream there, and otherwise the payload returned is that of the last event named `done`, or the empty one if there is none |
| `SseStream.DeliverParts` | web/lib/api/http.ts:247-258 | the inner loop extends the delivery by the blocks one chunk completed and keeps the last `done` payload |
| `SseStream.ParseBlock` | web/lib/api/http.ts:248-256 | the line loop gathers the event name and data lines of a block |
| `SseStream.StopEarly` | web/lib/api/http.ts:255-257 | a stream stopped by a bad payload has delivered what the whole text delivers, whatever was still to come |
| `SseConformance.LinesAgreeWithBlocks` | web/lib/api/http.ts:245-257 | cutting at blank lines and reading blocks gives what a line-by-line interpretation with dispatch on blank lines gives, for every text |
| `SseConformance.LineConforms` | web/lib/api/http.ts:251-252 | the reader handles a line as the HTML Living Standard section 9.2.6 does for every state exactly when the line is plain: trimming and taking off one space agree, and it is not one of the forms only the standard reads |
| `SseConformance.ConformsToStandard` | web/lib/api/http.ts:241-260 | a text with LF line ends and plain lines delivers exactly the events the standard dispatches, an unterminated last event discarded |
| `SseConformance.CrlfStreamDeliversNothing` | web/lib/api/http.ts:245-245 | for every text with its LF line ends written CRLF the reader delivers nothing, the standard delivers what it delivers of the LF text, and so the two agree if and only if that is nothing |
| `SseConformance.RoundTrip` | web/lib/api/http.ts:245-258 | events serialised as in section 9.2.5, with names and data lines of one trimmed line, are delivered once each, in order, with multi-line data rejoined, whatever unterminated tail follows |
| `SseConformance.ReceiveSerialised` | backend/app/modules/mentor/router.py:61-69 | the same for what the backend sends, through any chunking: each event with its name, or `message` without one, and its data lines joined by line feeds and parsed, up to the first that does not parse; the call succeeds if and only if all do, and then the last event named `done` is its result |
| `SseConformance.StandardReadsSerialised` | backend/app/modules/mentor/router.py:61-69 | a reader that follows sections 9.2.5 and 9.2.6 gets of the serialised events exactly what was sent, for names that are not empty |
| `MobileTokens.MobileClient.constructor` | frontend/src/api/http.ts:82-97 | the module variables just after the first storage read |
| `MobileTokens.MobileClient.RefreshTokens` | frontend/src/api/http.ts:164-193 | every caller gets the promise of the one shared exchange, and a second call starts nothing |
| `MobileTokens.MobileClient.SendCaptured` | frontend/src/api/http.ts:168-175 | the token presented is the one read when the exchange started; without one the exchange settles |
| `MobileTokens.MobileClient.SendThrew` | frontend/src/api/http.ts:141-153 | a throwing send settles the exchange and leaves the tokens |
| `MobileTokens.MobileClient.SaveOrClear` | frontend/src/api/http.ts:177-187 | an answer replaces the tokens by the new pair or clears them |
| `MobileTokens.MobileClient.Finally` | frontend/src/api/http.ts:188-190 | the shared promise is given up with the exchange |
| `MobileTokens.MobileClient.SaveTokens` | frontend/src/api/http.ts:99-103 | a login's pair replaces whatever is held, exchanges untouched |
| `MobileTokens.MobileClient.ClearTokens` | frontend/src/api/http.ts:105-109 | sign-out clears the tokens and leaves exchanges in flight |
| `MobileTokens.TokensArePresentedOnce` | frontend/src/api/http.ts:85-211 | in every interleaving of requests, refreshes, logins, sign-outs and server answers there is at most one exchange; if no answer for a token still held is lost, no refresh token reaches the refresh endpoint twice; and if no successor of a token still held is lost, reuse detection never fires |
| `MobileReuse.LosingAReplyIsSafeExactly` | backend/app/modules/identity/service.py:372-409 | in every reachable state, whatever was lost before: after losing this reply, reuse detection stays silent in every run that loses no further successor of a held token, if and only if it would have stayed silent anyway and this reply is not one; the same for presenting a token twice and any answer for a held token |
| `MobileReuse.NeverReuseIffClean` | backend/app/modules/identity/service.py:372-391 | in every safe state reuse detection stays silent in all runs that lose no successor of a held token, if and only if it has not fired, no rotated token is about to be presented, and none is held unless its successor is on its way |
| `MobileReuse.PresentsHeld` | frontend/src/api/http.ts:166-190 | unless its successor is on the way, the client can come to present the token it holds, from any stage of an exchange |
| `MobileTokens.StepKeepsSafe` | backend/app/modules/identity/service.py:372-426 | every client or server step, lost replies included, keeps one exchange and every pair on its way fresh, of the family of the token it replaces, and nowhere else |
| `MobileTokens.LostReplyRevokesTheFamily` | backend/app/modules/identity/service.py:341-391 | from every safe state in which the answer to the token the client still holds is its successor, losing that reply makes the next refresh present that token again and revokes every token of the family, the lost pair included |
| `MobileTokens.RefreshCanReachTheReply` | frontend/src/api/http.ts:166-176 | every idle client with a token the server would rotate can come to such a state |
| `MobileTokens.SignOutIsFinalWhenQuiet` | frontend/src/api/http.ts:561-571 | signed out with nothing in flight, the client holds no tokens until a login answers |
| `MobileTokens.SignOutDuringRefreshIsUndone` | frontend/src/api/http.ts:182-187 | an answered exchange still to be received installs its pair after the tokens were cleared |
| `MobileTokens.SignOutIsUndoneExactlyByHopefulExchanges` | frontend/src/api/http.ts:166-187 | after a sign-out in any run, lost replies included, the client can hold tokens again without a login if and only if some exchange has a pair for it, or holds a token whose row exists and is neither used nor revoked |
| `MobileTokens.SignOutIsFinalWhenHopeless` | frontend/src/api/http.ts:561-571 | signed out with no such exchange, the client holds no tokens in any run without a login |
| `MobileSessions.SignOutEndsTheFamily` | backend/app/modules/identity/service.py:416-427 | after any run, a sign-out that reaches the server revokes every token of the presented one's family and changes no other row; in every run that follows they stay revoked and presenting one brings no pair; an unknown token changes nothing |
| `MobileSessions.SignedOutCannotRefresh` | backend/app/modules/identity/service.py:416-427 | a client that signs out on the server and refreshes again ends without tokens |
| `MobileSessions.LoginSignsIn` | backend/app/modules/identity/service.py:312-333 | after any run a login that is answered leaves an idle client with a token the server would rotate, in a family no earlier row has |
| `MobileSessions.RefreshRenews` | frontend/src/api/http.ts:164-190 | a refresh with no reply lost uses up the token held and leaves another of the same family, never seen before, that the server would rotate |
| `WebSession.WebClient.constructor` | web/lib/api/http.ts:10-15 | the module variables at load |
| `WebSession.WebClient.SetAccessToken` | web/lib/api/http.ts:17-19 | replaces the token and nothing else, in particular not the epoch |
| `WebSession.WebClient.RefreshAccess` | web/lib/api/http.ts:52-95 | one shared exchange that closes over the epoch it started in |
| `WebSession.WebClient.OnReply` | web/lib/api/http.ts:70-83 | an answer of an older epoch changes nothing; 204 and rejections clear the token, server errors do not |
| `WebSession.WebClient.OnBody` | web/lib/api/http.ts:84-89 | a body of the current epoch becomes the token, one of an older epoch changes nothing |
| `WebSession.WebClient.OnReject` | web/lib/api/http.ts:57-69 | a rejected fetch changes no token |
| `WebSession.WebClient.Finally` | web/lib/api/http.ts:90-93 | the shared promise is given up with the exchange |
| `WebSession.WebClient.Unauthorized` | web/lib/api/http.ts:30-35 | clears the token and fires unless it fired in this epoch |
| `WebSession.WebClient.Logout` | web/lib/api/http.ts:320-323 | a new epoch and no token, before anything is awaited |
| `WebSession.SessionIsSafe` | web/lib/api/http.ts:30-95 | in every interleaving: one exchange at most, every token installed by an exchange of the epoch it is installed in, the handler fired at most once per epoch |
| `WebSession.RefreshDecidesUnlessLoggedOut` | web/lib/api/http.ts:52-95 | after any run a refresh starts; whatever follows, its body is installed, and its empty answer or rejection clears the token, if and only if no logout came between; server errors and successful headers leave it |
| `WebSession.InstalledIsHeld` | web/lib/api/http.ts:84-89 | what a step installs is the token the client then holds |
| `WebSession.LogoutSignsOut` | web/lib/api/http.ts:320-336 | after any run and a logout, without a login and a new refresh the client holds no token |
| `WebSession.LogoutBarsEarlierRefreshes` | web/lib/api/http.ts:320-336 | whatever happened before a logout and whatever follows, no exchange started before it installs a token after it |
| `WebSession.SignedOutStaysSignedOut` | web/lib/api/http.ts:320-336 | with only older exchanges in flight, no login and no new refresh, the client stays without a token |
| `WebSession.FiresOncePerEpoch` | web/lib/api/http.ts:30-35 | after any run the next unauthorized call clears the token, and fires the handler if and only if it has not fired in this epoch |
| `WebSession.FiresOnceUntilLogout` | web/lib/api/http.ts:30-35 | once fired, the handler does not fire again until a logout, logins in between included |
| `AuditRuns.AuditRun.Claim` | backend/app/modules/audit/repository.py:214-272 | one conditional UPDATE: it wins exactly when the row is queued, failed, or running past its lease, and a winner leaves it unclaimable |
| `AuditRuns.AuditRun.MarkSucceeded` | backend/app/modules/audit/repository.py:308-313 | status and report, attempts kept |
| `AuditRuns.AuditRun.MarkFailed` | backend/app/modules/audit/repository.py:315-327 | status only, whatever the row says |
| `AuditRuns.AuditRun.MarkQueued` | backend/app/modules/audit/repository.py:289-306 | status only, attempts kept |
| `AuditRuns.StepKeepsSound` | backend/app/workers/tasks.py:134-276 | every step keeps one holder, one report, live jobs inside their timeout, and the account of claims, as long as foreign writes are harmless |
| `AuditRuns.AuditIsSafe` | backend/app/workers/tasks.py:134-276 | over all runs with redeliveries, deaths, lease takeovers and retries, with a lease that covers the timeout and foreign writes harmless: one holder at a time, at most one report, and claims never exceed one plus the failures and deaths of holders |
| `AuditBilling.PassesNeverExceedClaims` | backend/app/workers/tasks.py:147-224 | over every run, under every policy, raising claims, double retries and short leases included: the passes billed are exactly the claims won less those that ended before their pass and those that hold the run without having begun it |
| `AuditBilling.OnePassExactlyIfNothingReopens` | backend/app/modules/audit/repository.py:230-272 | over every run at most one pass is billed, if and only if nothing may reopen a run: no claim of a failed row, none of an expired lease, no resubmission back to the queue |
| `AuditBilling.FailedRowBillsTwice` | backend/app/modules/audit/repository.py:253-253 | with claims of failed rows alone, two passes |
| `AuditBilling.ExpiredLeaseBillsTwice` | backend/app/modules/audit/repository.py:254-257 | with expired leases alone, two passes |
| `AuditBilling.RequeueBillsTwice` | backend/app/modules/audit/service.py:591-604 | with resubmissions alone, two passes |
| `AuditRuns.SuccessIsFinal` | backend/app/workers/tasks.py:234-276 | in runs whose foreign writes are harmless, once succeeded the row never changes, whatever deliveries and side effects follow |
| `AuditRuns.OnlyTheHolderDecides` | backend/app/workers/tasks.py:147-248 | apart from foreign writes, only the holder's own steps give the row a terminal status |
| `AuditRuns.ForeignWriteIsSafeIffHarmless` | backend/app/workers/tasks.py:391-419 | after a failure recorded by a job whose claim raised, or a resubmission's write, every run that follows keeps to one holder at a time and one stored report, if and only if the row was neither held nor finished |
| `AuditRuns.ReopenedUnderAHolder` | backend/app/workers/tasks.py:391-419 | a row reopened under a live holder gets a second one |
| `AuditRuns.ReopenedAfterAReport` | backend/app/workers/tasks.py:391-419 | a row reopened after its report was stored gets a second report |
| `AuditRuns.LeaseMustCoverTheTimeout` | backend/app/modules/audit/runs.py:23-41 | exclusion holds over all runs if and only if the lease is at least the job timeout |
| `AuditRuns.DeployedTimes` | backend/app/modules/audit/runs.py:23-41 | as deployed no job works longer than 900 seconds, and a row left running can be claimed again after 1800 seconds and not before |
| `AuditRuns.StrandedOnlyByADeath` | backend/app/workers/tasks.py:134-276 | over every run under every policy, a run marked running has a live job behind it or one that had won it died |
| `AuditRetries.ResubmissionsAreCapped` | backend/app/modules/audit/service.py:591-604 | when only resubmissions reopen a run and at most k are between their read and their write, the claims won never exceed two plus k and no smaller bound holds, so the cap of three is kept if and only if k is one |
| `AuditRuns.RedeliveryAfterFailureBillsAgain` | backend/app/modules/audit/repository.py:230-241 | under every policy, a recorded failure and one redelivery bill two passes, with no other fault |
| `AuditRuns.RaisingClaimReopensAFinishedAudit` | backend/app/workers/tasks.py:225-232 | a delivery whose claim raises turns a succeeded row into a failed one, and the next delivery scores and stores again |
| `AuditRuns.DoubleRetryBreaksExclusion` | backend/app/modules/audit/service.py:591-604 | two resubmissions that read the same failed row with attempts left lead to two holders at once |
| `AuditHandler.RunAudit` | backend/app/workers/tasks.py:134-276 | for every way a delivery can fail: the row it leaves, whether a pass is billed, when it is left marked running, and that an exception reaches the queue if and only if a billed pass was scored and its report could not be stored |
| `AuditHandler.RecordFailure` | backend/app/workers/tasks.py:391-419 | best effort: the row is failed or, if that raises, left as it was |
| `AuditHandler.ExecutionIsARun` | backend/app/workers/tasks.py:119-276 | every execution of the handler with nothing else between its commits is a run of the protocol with the same final row and the same billing |
| `EvidenceGrading.TaskRecord.RecordAssessment` | backend/app/modules/readiness/service.py:669-717 | the loop gives every covered submission the verdict, others none, moves the task and adds one attempt |
| `EvidenceGrading.TaskRecord.RecordFailure` | backend/app/modules/readiness/service.py:720-740 | the task returns to open and every submission covered gets the error code, with no attempt and no outcome |
| `EvidenceGrading.ChargesStayNearTheCap` | backend/app/workers/tasks.py:611-621 | with at most k overlapping gradings whose recordings do not interleave, the counter equals the gradings charged and stays within the maximum less one plus k |
| `EvidenceOverlap.PromisesHoldExactlyWithoutOverlap` | backend/app/workers/tasks.py:567-688 | over all runs with at most k gradings at a time, the charges stay within the cap plus the overlap, the counter equals the charges, and each submission gets at most one outcome, each if and only if k is one |
| `EvidenceGrading.RecordingIsFirstIffPending` | backend/app/workers/tasks.py:623-636 | a recording keeps to one outcome a submission if and only if all it covers are still ungraded |
| `EvidenceGrading.WithoutOverlapEachSubmissionIsGradedOnce` | backend/app/workers/tasks.py:567-688 | without overlap the charges never exceed the maximum and each submission gets at most one outcome, over any number of redeliveries |
| `EvidenceGrading.OverlapRegradesAndLosesACharge` | backend/app/workers/tasks.py:623-667 | two overlapping deliveries grade one submission twice and the counter keeps one of the two charges |
| `EvidenceOverlap.InterleavedRecordingsDefeatTheCap` | backend/app/modules/readiness/service.py:688-705 | for every k, a run with at most k gradings at a time charges 3k, gives one submission k outcomes, and leaves the counter at three |
| `EvidenceCounter.CounterStaysNearExactlyForPairs` | backend/app/modules/readiness/service.py:688-705 | over all runs with at most k gradings at a time the stored counter stays within the maximum less one plus k, if and only if k is at most two |
| `EvidenceCounter.CounterClimbs` | backend/app/workers/tasks.py:611-621 | for every k of three or more, a run with at most k gradings at a time takes the counter to the maximum plus k, each stale recording reopening the cap check |
| `EvidenceOverlap.Round` | backend/app/modules/readiness/service.py:688-705 | from any idle task, k overlapping gradings of a new submission charge k times, judge it k times and count once |
| `EvidenceGrading.FailedGradingChargesNothing` | backend/app/workers/tasks.py:595-658 | a delivery that fails, before its grading or in it, opens the task, marks what it was grading, and leaves attempts and outcomes as they were |
| `EvidenceOutcome.StatusIsAVerdict` | backend/app/modules/readiness/service.py:653-705 | over every run a task is marked passed, failed or in need of more only with a submission of that verdict, and a recording marks it by its own |
| `EvidenceOutcome.SpentTaskIsSettled` | backend/app/workers/tasks.py:611-621 | three attempts charged and nothing being graded: in every later run no submission is taken or graded and nothing is charged |
| `EvidenceOutcome.PassedStaysPassed` | backend/app/modules/readiness/service.py:424-433 | a passed task with everything graded stays as it is in every run in which no delivery raises |
| `EvidenceOutcome.RaisingDeliveryReopens` | backend/app/modules/readiness/service.py:720-735 | a delivery that raises opens any task, a passed one included |
| `Redis.Server.Get` | backend/app/core/ai_budget.py:65-65 | an absent or expired key reads as nothing |
| `Redis.Server.IncrBy` | backend/app/core/ai_budget.py:91-91 | a live key grows and keeps its expiry, another starts anew without one |
| `Redis.Server.Expire` | backend/app/core/ai_budget.py:92-94 | sets the expiry and keeps the value |
| `AiLedger.Complete` | backend/app/ai/client.py:299-364 | at most two requests, the second with the repair turn and only after a mismatch; the usage reported is that of all requests sent; the last request alone decides between an answer, an error and the SDK's exception; the charge is that less the last request's own cost if it raised, so it is complete exactly when no request that cost something raised |
| `AiLedger.EveryTokenCounts` | backend/app/ai/client.py:176-196 | one token more of any of the four kinds is one more on the bill |
| `AiLedger.StreamText` | backend/app/ai/client.py:462-499 | a stream read to its end is charged in full, refused and truncated ones included and reported with that usage; one broken off is not charged and reports none |
| `AiBudget.WithinBudget` | backend/app/core/ai_budget.py:51-73 | a call is admitted exactly when there is no budget or the live counter of today is below it |
| `AiBudget.RecordUsage` | backend/app/core/ai_budget.py:76-96 | adds to today's counter and sets the expiry only when the count equals the tokens added |
| `AiBudget.DailySpendIsBounded` | backend/app/core/ai_budget.py:46-96 | with at most k calls in flight charging at most C each, what is charged from one UTC midnight to the next never exceeds the budget less one plus k*C, calls begun the day before included, and today's counter shows everything charged today |
| `AiBudget.UsedIsCharged` | backend/app/core/ai_budget.py:89-94 | the 36-hour expiry set by the first write never drops a charge within its own day |
| `AiBudget.CountersExpire` | backend/app/core/ai_budget.py:89-94 | over every run a day has a counter if and only if it was charged, and that expires thirty-six hours after the day's first charge whatever was charged later |
| `AiBudget.AdmissionIsExact` | backend/app/core/ai_budget.py:64-73 | whenever the store is sound, as every run keeps it, a call is admitted exactly when there is no budget or its day has been charged less |
| `AiBudget.DailyBoundIsReached` | backend/app/core/ai_budget.py:51-96 | for every budget, k and C of at least one token a run charges a day exactly its budget less one plus k*C, so no smaller bound holds |
| `RateLimit.Enforce` | backend/app/core/rate_limit.py:84-106 | counts, sets the expiry on the first count, admits up to the maximum; after requests at any times it decides as their history does |
| `RateLimit.BucketIsLifetime` | backend/app/core/rate_limit.py:96-98 | after any requests the counter is the number seen since its lifetime opened and it expires one window after that |
| `RateLimit.ReopensOneWindowAfterTheFirst` | backend/app/core/rate_limit.py:96-106 | a request is admitted exactly when a window has passed since the lifetime opened or fewer than the maximum were seen, and refused requests never postpone it |
| `RateLimit.LifetimeAdmitsItsFirst` | backend/app/core/rate_limit.py:96-106 | a counter lifetime admits exactly the first of its requests, up to the maximum |
| `RateLimit.WindowAdmitsLessThanTwice` | backend/app/core/rate_limit.py:96-106 | any half-open interval one window long admits at most twice the maximum less one, and at most the maximum when the window is one unit of time |
| `RateLimit.TwiceLessOneIsReached` | backend/app/core/rate_limit.py:96-106 | for every maximum and every window some history admits exactly that many |
| `RateLimit.LostExpireNeverReopens` | backend/app/core/rate_limit.py:96-101 | if the expiry of a spent counter was lost, every later request is refused |
| `Base32.DecodeBase32` | web/lib/auth/totp.ts:5-18 | the two loops compute the whole bytes of the concatenated five-bit values |
| `Base32.DecodeInvertsEncode` | web/lib/auth/totp.ts:5-18 | decoding inverts the RFC 4648 section 6 encoding of every byte sequence, whatever case, spaces, dashes, padding or other silent characters are put in or padding left out |
| `Base32.InsertionIsHarmlessIffSilent` | web/lib/auth/totp.ts:6-12 | a character may be put in anywhere without changing what a secret spells if and only if none of its capitals is in the alphabet, which shuts out characters beyond ASCII such as the long s |
| `Base32.EncodingDecoratesItself` | web/lib/auth/totp.ts:5-18 | every encoding is one of its own decorations, so the plain secret decodes too |
| `Base32.GroupsSpellTheBits` | web/lib/auth/totp.ts:7-12 | the encoder's characters spell exactly the bits and fewer than five zeros more |
| `Totp.TruncationIsRfc4226` | web/lib/auth/totp.ts:33-38 | masks, shifts and ors on 32-bit integers give the 31-bit big-endian integer of RFC 4226 section 5.3 for every digest, all reads in bounds |
| `Totp.CounterBuffer` | web/lib/auth/totp.ts:22-24 | the eight-byte buffer `setUint32` fills |
| `Totp.CounterIsRightBelowTwo32` | web/lib/auth/totp.ts:22-24 | the buffer is the RFC's eight-byte counter if and only if the counter is below 2^32 |
| `Totp.HotpIsSixDigits` | web/lib/auth/totp.ts:39-39 | the code is always six digits and spells the truncated value modulo a million |
| `Totp.TotpCode` | web/lib/auth/totp.ts:20-40 | the browser's code, from secret and clock |
| `Totp.BrowserCodeIsRfc6238` | web/lib/auth/totp.ts:20-40 | for every way of writing the key the browser computes the reference code of its step, until the counter passes 2^32 |
| `SecondFactor.VerifyTotp` | backend/app/core/security.py:528-556 | the window loop returns the first matching step unless it is used; characters beyond ASCII raise |
| `SecondFactor.AcceptedExactly` | backend/app/core/security.py:541-556 | a step is accepted if and only if the code is six ASCII digits, the clock is from thirty seconds before the step opens until thirty after it closes, the step is the earliest of those with that code, and it is later than the last used |
| `SecondFactor.RaisesExactly` | backend/app/core/security.py:541-550 | the comparison raises if and only if the candidate is six characters that `isdigit` accepts, not all of them ASCII |
| `SecondFactor.SpacesDoNotMatter` | backend/app/core/security.py:541-541 | a space put in anywhere makes no difference |
| `SecondFactor.UserRow.Submit` | backend/app/modules/identity/service.py:963-969 | an accepted step becomes the last used step, a refusal leaves it |
| `SecondFactor.StepsStrictlyIncrease` | backend/app/core/security.py:528-556 | over any attempts and any clock readings the accepted steps strictly increase, each within thirty seconds of the clock |
| `SecondFactor.BrowserCodeIsAccepted` | backend/app/core/security.py:548-556 | a code the browser makes within thirty seconds of the server's clock is accepted when no step of the window has been used |
| `SecondFactor.CollisionRefusesAnUnusedStep` | backend/app/core/security.py:550-554 | a valid code of an unused step is refused when the step before it has the same code and is used |
| `Decimals.ReadPrint` | web/lib/domain/profile.ts:160-185 | `Number(String(x))` is x for every decimal, positional or with exponent |
| `Decimals.RoundIsNearest` | web/lib/domain/profile.ts:304-306 | `Math.round` is the nearest integer, a half going up |
| `Decimals.RoundedQuotientIsNearest` | frontend/src/api/profile-mapping.ts:165-186 | the same for a rounded quotient, as annual revenue needs |
| `ProfileWire.NumberReadsBack` | web/lib/domain/profile.ts:160-165 | a printed number typed back is read as itself |
| `NumberSyntax.DecimalReads` | web/lib/domain/profile.ts:160-165 | digits, perhaps with a sign and a point, are read as the number they spell |
| `NumberSyntax.ExponentReads` | web/lib/domain/profile.ts:160-165 | an exponent, its letter in either case, moves the point by its value |
| `NumberSyntax.OtherTextsAreNoNumbers` | web/lib/domain/profile.ts:160-165 | a text with any character that belongs in no number is none, blanks around it apart |
| `NumberSyntax.ExponentIsPrintedExactly` | web/lib/domain/profile.ts:180-185 | a number is printed with an exponent if and only if its first digit is more than twenty-one places before the point or more than six after it |
| `NumberSyntax.GroupMarksDoNotMatter` | web/lib/domain/profile.ts:160-165 | commas and spaces typed anywhere in a number make no difference |
| `WebProfile.ToWire` | web/lib/domain/profile.ts:266-356 | the tables and loops fill exactly the columns and fields of the specification, money only with a country |
| `WebProfile.TablesMatch` | web/lib/domain/profile.ts:204-301 | for all fifty-three fields the two tables pair the same answer, key and conversion |
| `WebProfile.ValueReadsBack` | web/lib/domain/profile.ts:167-191 | a stored value shown and saved again is unchanged if and only if a save can have stored it |
| `WebProfile.LoadThenSaveKeepsProfile` | web/lib/domain/profile.ts:201-356 | loading a stored profile and saving it sends back the same profile if and only if it is well formed, for six stages, twelve countries and fifty-three fields |
| `WebProfile.SavesAreWellFormed` | web/lib/domain/profile.ts:266-356 | every save of every form is well formed |
| `WebProfile.SavingIsIdempotent` | web/lib/domain/profile.ts:201-356 | saving, loading and saving again gives the same payload, for every form |
| `WebProfile.CountryReadsBack` | web/lib/domain/email.ts:107-124 | the country tables invert each other |
| `WebProfile.StagesInvert` | web/lib/domain/email.ts:94-105 | so do the stage tables |
| `ProfileMeaning.WebSays` | web/lib/domain/profile.ts:266-356 | every field stored says what was typed: the text trimmed, yes or no, the number itself, the nearest whole number, the nearest hundredth in a known country |
| `MobileProfile.ResolvesToFirstListed` | frontend/src/api/profile-mapping.ts:141-153 | a location resolves to a country if and only if that is the first row listing one of its comma-separated parts |
| `MobileProfile.TownDoesNotHide` | frontend/src/api/profile-mapping.ts:141-153 | a listed country behind a town and a comma, with any blanks between, is found unless the town is the name of one listed before it |
| `MobileProfile.ShownNameResolves` | frontend/src/api/profile-mapping.ts:422-422 | the name shown for a country resolves to that country |
| `MobileProfile.ToWireProfile` | frontend/src/api/profile-mapping.ts:221-369 | the payload and the list of unmapped answers, in order |
| `MobileProfile.Fields` | frontend/src/api/profile-mapping.ts:256-360 | the stored fields, and the amounts reported when the currency is unknown |
| `ProfileMeaning.AppSays` | frontend/src/api/profile-mapping.ts:221-369 | the same for the app, with only annual revenue divided, by twelve |
| `ProfileMeaning.RevenueIsMonthly` | frontend/src/api/profile-mapping.ts:181-186 | in a known country, for revenue d and hundredths v stored, -6 <= 100d - 12v < 6 if it is stated per year and -1/2 <= 100d - v < 1/2 if not |
| `ProfileMeaning.OnlyRevenueDependsOnTheYear` | frontend/src/api/profile-mapping.ts:181-186 | stating revenue per year or per month changes nothing else in the payload |
| `ProfileMeaning.AmountsAreShownInFull` | web/lib/domain/profile.ts:167-191 | both forms show a stored amount as a hundredth of it |
| `MobileProfile.LostOnlyIfUnreadable` | frontend/src/api/profile-mapping.ts:221-369 | every answer typed other than the deck is in the payload or in the report, never in both, and in neither if and only if it should be a number, cannot be read as one, and is not a reported amount |
| `MobileProfile.ReportedExactly` | frontend/src/api/profile-mapping.ts:233-360 | what is reported: a location or stage not recognised, and every amount typed without a known country |
| `MobileProfile.LoadThenSaveKeepsProfile` | frontend/src/api/profile-mapping.ts:392-477 | loading and saving sends back what the app knows of a stored profile unchanged if and only if the app can have stored it |
| `MobileProfile.RemappingGivesSamePayload` | frontend/src/api/profile-mapping.ts:383-477 | mapping the read-back form again gives the same payload, if and only if the cost trend is one on offer |
| `MobileProfile.TwoStagesAreChanged` | frontend/src/api/profile-mapping.ts:95-109 | two of the six stages come back as another |
| `MobileProfile.TablesMatch` | frontend/src/api/profile-mapping.ts:256-477 | for all thirty-six fields the two tables pair the same answer, key and conversion |
| `ClientsAgree.SameAnswersSameProfile` | frontend/src/api/profile-mapping.ts:221-369 | the same answers, with revenue per month, give the same stored profile on both clients as far as the app knows it |
| `ClientsAgree.CountriesAgree` | web/lib/domain/email.ts:107-124 | the web form's countries are found by the app by the same names, with the same codes and currencies |
| `ClientsAgree.StagesAgree` | web/lib/domain/email.ts:94-105 | a stage both forms offer is stored alike, and the app shows the two it lacks as others |
| `Fences.JoinedMessageReadsBack` | backend/app/ai/caching.py:79-85 | a sequential reader recovers exactly the sanitised labels and contents, in order, if and only if no sanitised content contains the closing tag of its own fence |
| `Fences.SpanReadsBack` | backend/app/ai/guards.py:92-109 | one fence reads back as written if and only if it does not close itself, whatever follows |
| `Fences.SanitisingIsIdempotent` | backend/app/ai/guards.py:68-102 | sanitising labels and contents twice is sanitising once |
| `Fences.ClosingTagIsFirst` | backend/app/ai/guards.py:104-108 | after an opening tag the first closing tag with that nonce is the fence's own if and only if the content does not contain one, straddling occurrences included |
| `Fences.LabelIsClean` | backend/app/ai/guards.py:101-101 | a sanitised label is not empty, trimmed, without control characters and without a closing bracket |
| `Fences.OrdinaryCharactersStay` | backend/app/ai/guards.py:60-68 | sanitising keeps tabs, line ends, printable ASCII and everything from the no-break space on, in place, and takes out all else |
| `Fences.LabelIsKeptExactly` | backend/app/ai/guards.py:101-101 | a label is kept if and only if it is not empty, trimmed, ordinary and without closing brackets; one with nothing to keep is `document` |
| `Fences.BlankSpansVanish` | backend/app/ai/caching.py:85-85 | a blank span adds nothing to the message, wherever it stands |
| `EmailDomains.IsListed` | backend/app/core/email_domains.py:182-191 | the loop over label suffixes answers yes exactly when the domain is an entry or ends with a dot and an entry of at least two labels |
| `EmailDomains.RulesAgree` | frontend/src/domain/email.ts:69-76 | with entries of at least two labels the loop, the dotted-suffix test and the client's rule without its brands agree |
| `EmailDomains.RulesAgreeExactly` | backend/app/core/email_domains.py:182-191 | the loop and the dotted-suffix test agree on every domain if and only if every entry has at least two labels |
| `EmailDomains.OneLabelIsNeverTried` | backend/app/core/email_domains.py:187-190 | an entry of one label is matched by the dotted-suffix test and never by the loop |
| `EmailDomains.DomainsAgree` | backend/app/core/email_domains.py:160-171 | server and client read the same domain from an address with one at sign, something on each side and no blanks around it |
| `EmailDomains.TwoAtSignsAreReadApart` | backend/app/core/email_domains.py:160-171 | of an address with two at signs the server reads what follows the last and the client what stands between them |
| `EmailDomains.OnlySubdomainsAreListed` | backend/app/core/email_domains.py:182-191 | an entry of two labels stands for itself and for what ends in it after a dot, and for nothing that merely ends in its letters |

## Left out

- `MobileTokens.TokensArePresentedOnce`: its claims are for runs that lose no answer, or no successor, of a token still held; `LosingAReplyIsSafeExactly` shows that each such loss breaks them.
- `AuditRuns.AuditIsSafe`: for runs whose foreign writes are harmless and a lease that covers the timeout; `ForeignWriteIsSafeIffHarmless` and `LeaseMustCoverTheTimeout` show that both conditions are exact, and the code does not check the first. What holds without them is `PassesNeverExceedClaims`.
- `AuditHandler.ExecutionIsARun`: for a delivery with no other step between its commits; all interleavings are those of `AuditRuns`.
- `EvidenceGrading.ChargesStayNearTheCap`: for recordings that do not interleave; without that it holds exactly when there is no overlap (`PromisesHoldExactlyWithoutOverlap`).
- React and Expo screens, HTTP, fetch, Postgres, R2, the model API and the cryptography behind tokens: they appear only as the steps and outcomes named above.
- The first storage read of the mobile client: `loadTokens` marks itself done before it awaits, so a first caller beside it sees no tokens. The model starts after it; writes to storage are taken to succeed at once.
- A throwing `send` is taken never to have reached the server, as frontend/src/api/http.ts:148 assumes; `LostReplyRevokesTheFamily` shows what rests on it. Tokens are numbers; success bodies are well formed.
- Aborting the web client's refresh is not relied on: an aborted fetch may still resolve in the model. Expiry of access tokens is a free choice of the request.
- `TextDecoder` and JSON: chunks are decoded text, `JSON.parse` is any function that may fail, and the event handler does not throw. Comment, `id` and `retry` lines appear only in the comparison with the standard.
- Jobs of the queue are taken to be gone by their timeout, which is what the lease relies on. Row deletion is not modelled; a failure that could not be recorded is a job that ends without a word.
- Inbox notices and mails after a grading share its transaction or follow it; a failure there is a delivery that dies. Reopening a passed task by an administrator is not modelled.
- Redis errors let calls and requests through in the code; the bounds are for a Redis that answers. The day key and the Redis command are taken at one instant, and prompts, retries of the SDK and the split of limits by path are left out.
- HMAC is any function to twenty bytes and pyotp is not part of this model: the server's codes are the RFC's reference codes, for clocks at or after the first step. Verifications of one user follow one another. Recovery codes are left out.
- Numbers are exact decimals: binary rounding, negative zero and magnitudes beyond a double are left out. Letter case is modelled as far as it gives ASCII letters, every such character beyond ASCII included; other letters keep their case, which the repository's lists, tables and alphabet, all ASCII, cannot tell.
- Answers that name a member of JavaScript's `Object.prototype` (a stage called `constructor`) are not modelled. The wording of the reasons in the mobile report, and `source: founder`, are constants and left out.
- The nonce of a fence is a parameter of sixteen hexadecimal digits; nothing is said about guessing it. What a language model makes of the fence is outside the model.
- `SseConformance.ConformsToStandard`: stated for texts without CR and without a byte order mark; the reader takes CR as an ordinary character, and `CrlfStreamDeliversNothing` shows what that costs.
- The contents of the blocklists, company names derived from addresses, entitlement, catalogue matching and scoring on the device: easy case splits or no invariant.
