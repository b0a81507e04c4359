# Protocols of the m-BCA mobile API

A Dafny model of the parts of the backend whose correctness is a matter of protocol rather than of
a single function: what two requests may do to each other, what a cache may say about a table, what
a failed call leaves behind, and what a text format can be relied on to carry.

Every component has the same shape. A *machine* gives the stores as maps and each call, or each
store call of a request, as a function on them; the environment decides which calls fail, how, and
what the cache forgets. *Lemmas* state what holds in every run of the machine. A *class* with the
source's fields runs the same calls as mutable code, with the source's early returns, and its
contracts say that it ends in the state the machine gives. So a property of the machine is a
property of the class. The *Outcomes* modules say of each call, from the stores it finds and without
its steps, exactly when it gives which answer and what it leaves behind.

| files | component |
|---|---|
| `TopUpMachine`, `TopUpSafety`, `TopUpService`, `TopUpOutcomes`, `TopUpAnswers`, `TopUpNames` | idempotent e-wallet top-up, any number of interleaved requests |
| `SessionMachine`, `SessionSafety`, `SessionRotation`, `SessionService`, `SessionOutcomes` | login sessions, the live-marker cache, refresh rotation with reuse detection (section 4.14.2 of RFC 9700), whole calls |
| `SessionOverlap`, `SessionTruth` | refreshes and checks that overlap with everything else, one store call at a time |
| `LivenessActions`, `LivenessPayload`, `LivenessHash`, `LivenessChecks` | random action order, signed payload, perceptual hash, submission checks |
| `LivenessProtocol`, `LivenessSafety`, `LivenessFlag`, `LivenessSteps`, `LivenessService`, `LivenessOutcomes`, `Onboarding` | single-use challenges, the biometric flag, the step order |
| `EscalationMachine`, `EscalationSafety`, `EscalationRuns`, `EscalationService`, `EscalationOutcomes` | tier-2 escalations between competing reviewers |
| `SignalingClient`, `SignalingHub` | the signaling hub and its bounded queues, as heap objects |
| `KtpNik`, `KtpText`, `KtpNoise`, `Text` | identity number, identity card text |
| `CardCatalog`, `CardMachine`, `CardSafety`, `CardSerial`, `CardRuns`, `CardService`, `CardOutcomes` | the version-keyed card catalogue cache under overlapping readers and writers |
| `TerminalGates`, `TerminalSafety`, `TerminalSessions`, `TerminalService` | terminal readiness gates and activation |
| `AuditPaging` | keyset paging of the audit trail |
| `PinLockout`, `PinSafety`, `PinRuns`, `PinService`, `PinOutcomes` | PIN failures, lock periods and their spacing, any number of overlapping calls |
| `Basics` | optional values and the three ways a store call can go |

A store call goes one of three ways: it is done, it is refused without effect, or it takes effect
and its reply is lost. Hashes and signed tokens are names, fresh when they are issued. A clock is
read once per step.

## What the code does and its comments do not say

The model follows the code. These are statements proved below that a reader of the comments would
not expect. Where a protocol goes wrong there is a run from the first start that shows it, or a
statement about every state that is ready for it, and the exact condition under which it does not.

- The cache implementation of the inquiry store does not keep an inquiry's metadata map, and the
  source account travels nowhere else, so with it every top-up ends in a validation error
  (`WithoutMetadataNothingCommits`). The other top-up results are about a store that keeps it.
- A top-up whose commit reply is lost gives its inquiry and token back, and a retry under a new
  idempotency key debits the inquiry a second time (`LostCommitDebitsTwice`; exactly when:
  `DebitedOnceExactly`). A retry under the same key with another inquiry debits nothing, spends that
  inquiry, and answers its total under the first debit's name (`RetryNamesAnotherDebit`; exactly
  when: `AnswersDescribeExactly`). `StartsReady` reaches the states both start from.
- Re-warming the marker of one session gives the set of all live sessions of its user the expiry of
  that session. Logging out everywhere can then miss markers, and a revoked session keeps working
  until its marker expires, although every call succeeded (`ShortenedSetLeavesAMarker`; exactly
  when: `HonestStep`, `GentleStep`).
- The update of a refresh is keyed by the session and not by the token it replaces, so two
  overlapping refreshes of one token both give tokens (`OverlappingRefreshes`; exactly when:
  `AtMostOnceExactly`).
- A check or a refresh that overlaps a logout marks the revoked session as live after the logout
  has cleared it (`CheckOutlivesLogout`, `RefreshOutlivesLogout`; exactly when: `HonestOverlap`; from
  when on a revocation is final: `FinalExactly`).
- A refresh that marks a session some time after it renewed the row leaves a marker that outlives the
  row (`MarkerOutlivesTheRow`), and one that renews a row found expired leaves the dead marker of an
  overlapping check on a live session (`RenewedLooksDead`; exactly when: `TruthStep`).
- The time check of liveness frames skips a frame that follows one stamped with the zero time
  (`ZeroTimeBreaksTheOrder`). That takes a challenge issued around the first of January of year 1,
  which no real clock reaches: within the years of any deployment the documented rule is what is
  checked (`AcceptsAsDocumented`).
- Escalating a failed liveness attempt writes the completed steps of the cached session. A stale copy
  takes a biometric flag back (`StaleCopyLosesTheFlag`; exactly when: `FlagLostExactly`).
- A pass, and an escalation of a failed attempt, write VIDEO_CALL whatever the step has become
  (`LatePassMovesBack`; exactly when: `LivenessSteps.MovesBackExactly`).
- An approved escalation writes the step whatever it has become since it was read
  (`StaleReadMovesBack`; exactly when: `EscalationSafety.MovesBackExactly`).
- An agent who claims a case twice at once is told that another agent holds it
  (`OwnClaimLooksForeign`; what the answer does mean: `RefusalsAreTrue`).
- A holder whose agent id is written in other capitals passes the service's check and is refused by the
  table's (`EscalationOutcomes.AnswersExactly`).
- A refresh is answered that the token has expired only if it expires while the call runs, between the
  verification of the token and the look at its row: a token does not outlive its row
  (`RefreshAnswersExactly`).
- The refresh of the catalogue's version marker is not part of the write. Two writes that commit in
  one order and refresh in the other leave the marker at the older version (`CrossedRefreshes`), and
  so does a read whose own write of the marker comes late (`LateMarkStays`), although every call
  succeeded; reads that overlap nothing then answer the older cards (exactly when: `SettledStep`,
  `ReadsAreFresh`).
- A catalogue read lists the cards before it reads the version. Overlapping a write, it stores old
  cards under the new version (`OverlapPoisons`; exactly when: `CurrentStep`).
- A PIN call looks at the lock once, before it compares. However many calls look before the first of
  them compares, all of them compare, and each failure past the allowance starts a lock period at the
  same moment, so the lock stops none of them (`BurstLocksAtOnce`; exactly when lock periods overlap:
  `OverlapsExactly`). How many calls that can be is up to the rate limits in front of them.
- Numbering a lock and setting it are two writes. Numbered in one order and set in the other, a lock
  of a day is cut to half an hour (`DayIsShortened`; exactly when locks stay in order: `OrderStep`).
  They are two round trips, and the day for which the count is remembered runs from the first: the time
  between them comes off the twenty-five hours that four lock periods take (`GuessingIsSlow`), and a run
  meets that bound exactly (`BoundIsMet`).
- A login with the right PIN is answered with an error when the reset of the count fails
  (`PinOutcomes.AnswersExactly`).
- Province codes 95 and 96 are in the table and are never accepted (`StructureExactly`).
- A login elsewhere, and a logout whose terminal write fails, leave the old terminal ONLINE, and the
  guard does not look at the session (`SupersededStaysOnline`; exactly when: `MannedStep`).

## Model

| member | source | states |
|---|---|---|
| `TopUpSafety.DebitsNeverShare` | internal/domain/ewallet/service.go:194-395 | In every interleaving of any number of requests, with stores and executor failing, replying late or crashing at will: no two debits share user and idempotency key, and two debits share an inquiry or a token only if the earlier one's success never reached the service. |
| `TopUpSafety.DebitsAreFrozenInquiries` | internal/domain/ewallet/service.go:151-168 | Every debit in every run is for the user, source account, amount and fee fixed when its inquiry was created, and the total is their sum. |
| `TopUpSafety.OnePlaceAtATime` | internal/domain/ewallet/service.go:216-265 | In every run an inquiry or token held by a request is not in its store and is held by no other request. |
| `TopUpSafety.WithoutMetadataNothingCommits` | internal/repository/redis/transaction_cache.go:26-108 | With an inquiry store that drops the metadata map, no run ever debits anybody. |
| `TopUpSafety.RunKeepsInv` | internal/domain/ewallet/service.go:194-395 | The invariant behind these results is kept by every run from every state that satisfies it. |
| `TopUpService.LateFailureRollsBack` | internal/domain/ewallet/service.go:216-244 | A top-up that fails after consuming its token and its own unexpired inquiry leaves the key, token and inquiry stores as before the call when the undo writes succeed; the ledger too, unless the commit's reply was lost. |
| `TopUpAnswers.UndoGivesBackWhatWasTaken` | internal/domain/ewallet/service.go:216-244 | The same for one request among any others: in every reachable state each step of its undo puts back exactly what it had taken, as issued and where nothing stands, or nothing, and changes no other key, token, inquiry or debit. |
| `TopUpOutcomes.AnswersExactly` | internal/domain/ewallet/service.go:194-395 | Exactly when a call gives each of its answers: a key still processing conflicts, a stored one is replayed, a free one leads to the token, the inquiry, the source account and the executor, each with its own errors; and a success gives the inquiry's amounts. |
| `TopUpOutcomes.KeyExactly` | internal/domain/ewallet/service.go:196-244 | What becomes of the key: only a call that found it free writes it, a failure frees it when the release takes, and a success stores exactly the answer given. |
| `TopUpOutcomes.TokenExactly` | internal/domain/ewallet/service.go:246-265 | When the token is gone afterwards: exactly if its store was reached, and it was not the caller's, or the call succeeded, or it could not be put back. |
| `TopUpOutcomes.InquiryExactly` | internal/domain/ewallet/service.go:246-290 | The same for the inquiry, which goes back only before its expiry. |
| `TopUpOutcomes.LedgerExactly` | internal/domain/ewallet/service.go:326-361 | Money moves exactly if everything before the executor went well, the executor took effect, and the key had no debit; then by one debit, as the inquiry says. |
| `TopUpOutcomes.ClaimedExactly` | internal/pkg/idempotency/idempotency.go:29-57 | In every state a new request gets to work exactly if its claim is answered and found the key free. |
| `TopUpOutcomes.ExclusiveStep` | internal/pkg/idempotency/idempotency.go:29-57 | A step keeps two requests from being at work on one key if and only if it is not the lapse of the key of a request at work. |
| `TopUpOutcomes.ExclusiveExactly` | internal/domain/ewallet/service.go:194-244 | Throughout a run no two requests are at work on one key if and only if no such key lapses. |
| `TopUpOutcomes.SecondIsRefused` | internal/domain/ewallet/service.go:196-211 | And then a request that comes while another is at work on its key gets a conflict and changes no store. |
| `TopUpOutcomes.StartsExclusive` | internal/domain/ewallet/service.go:194-211 | The empty stores meet what the three results above start from. |
| `TopUpService.SoloCommits` | internal/domain/ewallet/service.go:326-394 | Otherwise it spends token and inquiry, adds at most one debit of the inquiry's amount and fee, answers those amounts under the name of the key's debit, and leaves the key stored, or still processing if the answer could not be persisted. |
| `TopUpService.RetryReplays` | internal/domain/ewallet/service.go:196-211 | A key with a stored answer replays it and changes no store. |
| `TopUpService.LostCommitDebitsTwice` | internal/domain/ewallet/service.go:326-329 | For every inquiry, a commit with a lost reply followed by a retry under another key makes two debits of it, the first unacknowledged. |
| `TopUpAnswers.DebitedOnceExactly` | internal/domain/ewallet/service.go:326-329 | Over every run each inquiry and each token backs at most one debit if and only if nothing is committed for an inquiry or a token of a debit whose success was lost. |
| `TopUpAnswers.RepliesArriveOnce` | internal/domain/ewallet/service.go:326-329 | In particular each backs at most one debit in every run in which no commit's reply is lost, whatever else fails. |
| `TopUpAnswers.AnswersDescribeExactly` | internal/domain/ewallet/service.go:337-361 | In every reachable state an execution that answers names the one debit of its user and key, and gives that debit's amounts if and only if the key had no debit before or had one of the same price. |
| `TopUpNames.EveryAnswerNamesItsDebit` | internal/domain/ewallet/service.go:196-211 | In every run every success answered, fresh or replayed from the key store, names a debit in the ledger of that user and key, and there is only one. |
| `TopUpAnswers.RetryNamesAnotherDebit` | internal/domain/ewallet/service.go:337-361 | For every two inquiries of different names: after a lost commit reply, a retry of the key with the other inquiry spends it, debits nothing, and answers its total under the first debit's name. |
| `TopUpAnswers.StartsReady` | internal/domain/ewallet/service.go:151-168 | An inquiry, a token and a call from an empty store make a state that the two results above start from. |
| `TopUpService.DriveIsARun` | internal/domain/ewallet/service.go:194-395 | A call alone is a run of the interleaved machine, so what holds of all runs holds of it. |
| `TopUpService.Service.ExecuteTopUp` | internal/domain/ewallet/service.go:194-395 | The imperative call leaves the stores and gives the answer that the machine does, for every pattern of failures; a key still processing gets a conflict and changes nothing. |
| `TopUpService.Service.Undo` | internal/domain/ewallet/service.go:219-244 | The deferred undo: release the key, give back an unexpired inquiry, give back the token, each whatever the others do. |
| `TopUpService.Service.Execute` | internal/repository/postgres/ewallet_repo.go:225-235 | The executor inserts one row, or answers the row the unique index on user and key already has. |
| `TopUpService.Service.Claim` | internal/pkg/idempotency/idempotency.go:29-57 | A free key is claimed, and no other; a processing one conflicts; a stored one replays. |
| `SessionSafety.AnswersExactly` | internal/domain/auth/session_service.go:277-323 | Whatever cache reads fail, every answer of IsSessionActive is the table's answer if and only if no live marker stands on a revoked row. |
| `SessionSafety.HonestStep` | internal/domain/auth/session_service.go:157-237 | A step keeps it so if and only if every session it revokes that still has a live marker loses it in the same call. |
| `SessionSafety.ActiveIffLive` | internal/domain/auth/session_service.go:277-323 | In every run of such steps, with any evictions, failed reads and failed marker writes, IsSessionActive answers whether the row is unrevoked and unexpired. |
| `SessionSafety.GentleStep` | internal/repository/redis/session_cache.go:159-174 | While every live marker is listed in a set that outlives it, a step clears the markers it revokes and keeps them listed if and only if a revocation that meets live markers deletes them, no set of a user with live markers is lost, and a check that re-warms is of the user's last session to expire. |
| `SessionSafety.GentleRunIsClean` | internal/repository/redis/session_cache.go:85-94 | So runs of such steps are runs in which IsSessionActive agrees with the table. |
| `SessionSafety.RunKeepsBase` | internal/repository/redis/session_cache.go:83-174 | In every run, whatever fails, no marker outlives its row's expiry, dead markers stand only on sessions dead for good, and a token names its own session and user. |
| `SessionOutcomes.VerdictsExactly` | internal/domain/auth/session_service.go:277-323 | A check has no verdict exactly when no marker that stands is read and the table cannot be; a live marker comes before a dead one, and without either the row decides. |
| `SessionOutcomes.LooksExactly` | internal/domain/auth/session_service.go:277-311 | The same for the first half of a check that others come between. |
| `SessionOutcomes.VerdictsAreRemembered` | internal/domain/auth/session_service.go:300-322 | A check that asked the table and could write its marker spares the next check the table: for a minute if the session is dead, until the row expires if it is live. |
| `SessionOutcomes.ChecksLeaveExactly` | internal/domain/auth/session_service.go:277-323 | Only such a check writes anything, and that is the marker of its own session. |
| `SessionOutcomes.RefreshAnswersExactly` | internal/domain/auth/session_service.go:29-154 | Exactly when a refresh gives tokens, fails, or finds the token invalid; read at one moment, a token that verifies never meets an expired row. |
| `SessionOutcomes.RefreshLeaves` | internal/domain/auth/session_service.go:76-116 | A refresh that gives a token renews its own row and no other, with the new hash and another lifetime; the old token is remembered and the session marked when those writes take. |
| `SessionOutcomes.ChainGoesOn` | internal/domain/auth/session_service.go:29-154 | The token given can be exchanged in its turn, and the one it replaces cannot. |
| `SessionOutcomes.LoginBegins` | internal/domain/auth/service.go:312-354 | A login that reaches the table begins a live session whose token can be exchanged; marked, it is answered active without the table until the row expires. |
| `SessionOutcomes.LogoutLeaves` | internal/domain/auth/session_service.go:157-185 | A logout revokes its own row and deletes its own marker, when those calls go through, and touches no other. |
| `SessionOutcomes.EndingLeaves` | internal/domain/auth/session_service.go:217-237 | Ending all sessions of a user revokes that user's rows and deletes the markers the set lists, and nobody else's. |
| `SessionRotation.ShortenedSetLeavesAMarker` | internal/repository/redis/session_cache.go:159-174 | A run in which every call succeeds and a revoked session is still answered active. |
| `SessionRotation.ExchangedExactly` | internal/domain/auth/session_service.go:29-103 | Tokens are given exactly for the current token of an unrevoked session, not marked revoked, when the calls it depends on answer; and such a session is live. |
| `SessionRotation.AtMostOneExchange` | internal/domain/auth/session_service.go:91-94 | A refresh token is exchanged at most once over any run of whole calls, even if it was never marked revoked. |
| `SessionRotation.DetectsStep` | internal/domain/auth/session_service.go:96-103 | A step keeps every rotated-out token marked for the rest of its own life if and only if a rotation that reaches the table also marks the old token, and no needed mark is evicted. |
| `SessionRotation.RotatedOutIsRevoked` | internal/domain/auth/session_service.go:45-61 | In every run of such steps a rotated-out token that still verifies is in the revoked set. |
| `SessionRotation.ReplayFinishes` | internal/domain/auth/session_service.go:217-237 | Presenting a rotated-out token yields no tokens, and, when its rows are revoked, leaves exactly those sessions of its user with a live marker whose marker the user's set does not list for the revocation to delete. |
| `SessionRotation.ReplayEndsTheFamily` | internal/domain/auth/session_service.go:217-237 | Every other session its user had is never again answered active or refreshed, in every continuation, whatever fails and whatever is evicted. |
| `SessionRotation.FinishedExactly` | internal/domain/auth/session_service.go:277-323 | A revoked session is never again answered active, in any continuation of whole calls, if and only if no live marker stands on it. |
| `SessionRotation.FinishedForGood` | internal/domain/auth/session_service.go:29-103 | And no token of it is ever again exchanged. |
| `SessionRotation.LogoutFinishes` | internal/domain/auth/session_service.go:157-185 | A logout brings its session to that point exactly when its statement takes effect and a live marker, if there is one, is deleted. |
| `SessionRotation.LogoutAllFinishes` | internal/domain/auth/session_service.go:188-213 | A logout everywhere brings each session of its user to that point exactly when its statement takes effect and a live marker, if there is one, is listed and deleted. |
| `SessionOverlap.AtMostOnceExactly` | internal/repository/postgres/session_repo.go:101-115 | However refreshes, checks, logins, revocations and evictions interleave: every token is replaced at most once on behalf of requests that found it, if and only if no session's row was given another token between a request's find and its update. |
| `SessionOverlap.GivenOnce` | internal/domain/auth/session_service.go:63-103 | In such runs no two requests are given tokens for the same token. |
| `SessionOverlap.OverlappingRefreshes` | internal/domain/auth/session_service.go:63-103 | A run in which every call succeeds, both requests that present one token are given tokens, and the first one's is rotated out without a mark. |
| `SessionOverlap.HonestOverlap` | internal/domain/auth/session_service.go:105-118 | However calls overlap, a step leaves no live marker on a revoked session if and only if revocations clear the markers they meet and no marker is written for a session revoked since its row was found. |
| `SessionOverlap.RevokedIsRefused` | internal/domain/auth/session_service.go:277-323 | In every run of such steps no check that begins after a session was revoked answers active or is about to; one that had found the row before still may. |
| `SessionOverlap.SettledForGood` | internal/domain/auth/session_service.go:277-323 | Once a session is revoked, carries no live marker, and no call under way may still mark it, every check that begins is refused, in every continuation, whatever fails and whatever overlaps. |
| `SessionOverlap.FinalExactly` | internal/domain/auth/session_service.go:277-323 | And only then: a revoked session is refused by every check that begins in every continuation if and only if it has come to that point. |
| `SessionOverlap.StartsWell` | internal/domain/auth/session_service.go:29-103 | The first start meets what AtMostOnceExactly, GivenOnce and HonestOverlap start from. |
| `SessionOverlap.CheckOutlivesLogout` | internal/domain/auth/session_service.go:312-320 | A run in which every call succeeds, a check marks a session after its logout, and the session is then answered active. |
| `SessionOverlap.RefreshOutlivesLogout` | internal/domain/auth/session_service.go:105-118 | The same run with a refresh, whose marker lasts a whole new lifetime. |
| `SessionTruth.TruthStep` | internal/domain/auth/session_service.go:277-323 | However calls overlap, a step leaves both markers agreeing with the rows, expiry included, if and only if revocations clear what they meet, a refresh renews no row marked dead and marks it for no longer than it renewed it, and a check marks no row revoked and buries none renewed since it was found. |
| `SessionTruth.TruthfulExactly` | internal/domain/auth/session_service.go:277-323 | Throughout a run the markers agree with the rows if and only if every step is of that kind. |
| `SessionTruth.ChecksDecideByTheTable` | internal/domain/auth/session_service.go:277-323 | And then every check that begins decides, active or inactive, as the unrevoked and unexpired rows do. |
| `SessionTruth.StartsTrue` | internal/domain/auth/session_service.go:277-323 | The first start meets what TruthStep, TruthfulExactly and ChecksDecideByTheTable start from. |
| `SessionTruth.RenewedLooksDead` | internal/domain/auth/session_service.go:88-94 | A run in which every call succeeds and a live session is answered inactive. |
| `SessionTruth.MarkerOutlivesTheRow` | internal/domain/auth/session_service.go:105-116 | A run in which every call succeeds and an expired session is answered active. |
| `SessionOverlap.RefreshAlone` | internal/domain/auth/session_service.go:29-154 | Taken without interruption the steps of a refresh leave the stores and give the answer of the whole call. |
| `SessionOverlap.CheckAlone` | internal/domain/auth/session_service.go:277-323 | And so do the steps of a check. |
| `SessionService.Service.RefreshToken` | internal/domain/auth/session_service.go:29-154 | The imperative rotation ends in the machine's state and answer, branch by branch. |
| `SessionService.Service.IsSessionActive` | internal/domain/auth/session_service.go:277-323 | Likewise; it has no verdict exactly when no marker is read as standing and the table cannot be read, and with an honest cache its verdict is the row's. |
| `SessionService.Service.Logout` | internal/domain/auth/session_service.go:157-185 | The row is revoked; the marker is cleared only if that statement succeeded. |
| `SessionService.Service.LogoutAll` | internal/domain/auth/session_service.go:188-213 | The same for all rows of a user and the markers the user's set lists. |
| `SessionService.Service.EndAllSessions` | internal/domain/auth/service.go:569-583 | A change of PIN or access code revokes rows and markers, neither failure stopping the other. |
| `SessionService.Service.Login` | internal/domain/auth/service.go:312-354 | A new row and token, and a marker if the row was created. |
| `SessionService.Service.MarkActive` | internal/repository/redis/session_cache.go:85-94 | Sets the marker, adds it to the user's set, and overwrites the expiry of the whole set. |
| `LivenessActions.ShuffleIsABijection` | internal/domain/onboarding/liveness_challenge_service.go:316-326 | Draw vectors correspond one to one to the orders of distinct items. |
| `LivenessActions.SecureShuffle` | internal/domain/onboarding/liveness_challenge_service.go:317-337 | The loop in place computes that order, and reports an error exactly when the random source fails before it is done. |
| `LivenessActions.PickActions` | internal/domain/onboarding/liveness_challenge_service.go:285-314 | Two shuffles around one blink; it fails exactly when a draw does. |
| `LivenessActions.PickedIsAChallenge` | internal/domain/onboarding/liveness_challenge_service.go:280-314 | Every draw gives a list of length min(max(count, 2), 5) with a blink and no repetition. |
| `LivenessActions.EveryChallengeIsDrawn` | internal/domain/onboarding/liveness_challenge_service.go:302-313 | Every such list is given by some draw: no order and no choice of head poses is left out. |
| `LivenessPayload.PayloadReadsBack` | internal/domain/onboarding/liveness_challenge_service.go:391-416 | A parser recovers challenge, nonce, device, neutral digest and the index-ordered steps from the payload, if no field holds a newline and digests no colon; actions may hold colons. |
| `LivenessPayload.PayloadsAgreeExactly` | internal/domain/onboarding/liveness_challenge_service.go:391-416 | So payloads are equal if and only if those are. |
| `LivenessPayload.ArrivalOrderIsIrrelevant` | internal/domain/onboarding/liveness_challenge_service.go:396-398 | Reordering steps with distinct indices leaves the payload unchanged. |
| `LivenessPayload.SortIsStable` | internal/domain/onboarding/liveness_challenge_service.go:398-398 | The order used keeps, for every index, the steps with that index in their order. |
| `LivenessPayload.NewlinesCollide` | internal/domain/onboarding/liveness_challenge_service.go:402-403 | The newline condition is needed: for all texts, two different pairs of challenge and nonce share a payload. |
| `LivenessPayload.SignedPayload` | internal/domain/onboarding/liveness_challenge_service.go:391-416 | The builder loop writes that payload. |
| `LivenessHash.ExposureKeepsTheHash` | internal/domain/onboarding/biometric_engine.go:303-334 | Scaling the samples of a frame by a positive gain and shifting them does not change its hash. |
| `LivenessHash.DistanceZero` | internal/domain/onboarding/biometric_engine.go:343-343 | Two hashes are at distance zero exactly when they are equal. |
| `LivenessHash.DistanceIsAMetric` | internal/domain/onboarding/biometric_engine.go:343-343 | The distance is symmetric, bounded by the length, and satisfies the triangle inequality. |
| `LivenessHash.ComputeHash` | internal/domain/onboarding/biometric_engine.go:316-334 | The two loops set exactly the bits of the samples that reach the mean. |
| `LivenessChecks.CheckDeterministic` | internal/domain/onboarding/biometric_engine.go:78-133 | It passes exactly the submissions that are bound to the challenge, show its actions in order, are timed as the code demands and have distinct frames. |
| `LivenessChecks.CheckTimes` | internal/domain/onboarding/biometric_engine.go:117-130 | The loop with its running previous time, zero-time case included. |
| `LivenessChecks.CheckDistinctness` | internal/domain/onboarding/biometric_engine.go:146-184 | The hash loops: no frame equal to another or to neutral, every head pose far from neutral. |
| `LivenessChecks.AcceptsAsDocumented` | internal/domain/onboarding/biometric_engine.go:117-184 | The code enforces the documented rule, times globally increasing, on every submission, unless the zero time lies in the window with room below it. |
| `LivenessChecks.ZeroTimeBreaksTheOrder` | internal/domain/onboarding/biometric_engine.go:121-130 | In that window every accepted submission of two frames or more is also accepted with its times running backwards. |
| `LivenessChecks.StillImageIsRefused` | internal/domain/onboarding/biometric_engine.go:135-184 | Any submission that repeats a picture, in whatever exposure, is refused. |
| `LivenessChecks.CheckWithModels` | internal/domain/onboarding/biometric_engine.go:187-267 | A pass means one face in every frame in the demanded pose, the same person throughout, a live score, and a match with the enrolled reference; and conversely. |
| `LivenessChecks.VerifyInternal` | internal/domain/onboarding/biometric_engine.go:51-75 | The built-in provider passes exactly when both layers do, and never without a face model. |
| `LivenessChecks.VerifyStub` | internal/domain/onboarding/biometric_engine.go:364-388 | The stub passes exactly what the deterministic layer passes. |
| `LivenessSafety.JudgedAtMostOnce` | internal/domain/onboarding/biometric_service.go:114-126 | In every interleaving of submissions each challenge is judged for at most one of them and is then gone. |
| `LivenessSafety.VerifiedOnlyByAPass` | internal/domain/onboarding/biometric_service.go:464-475 | In every run a set biometric flag has behind it a passing judgement of a challenge issued to that session and its device, whatever stale copies were written. |
| `LivenessFlag.VerifiedByASubmission` | internal/domain/onboarding/biometric_engine.go:51-75 | In every run whose provider passes nothing that the deterministic checks refuse, as the built-in provider and the stub are proved to, a set flag has behind it a submission that was judged and passed and that those checks accept, for a challenge issued to that session and device. |
| `LivenessFlag.FlagLostExactly` | internal/domain/onboarding/biometric_service.go:387-395 | In every reachable state a step loses a set flag if and only if it is an escalation's effective update, or another service's, that writes a copy from before the pass. |
| `LivenessFlag.FlagSurvivesExactly` | internal/domain/onboarding/biometric_service.go:387-395 | Over a run a set flag stays set throughout if and only if no effective update writes a copy without it. |
| `LivenessFlag.StaleCopyLosesTheFlag` | internal/domain/onboarding/biometric_service.go:387-395 | A run in which a submission passes, the cache write after it fails, and the same submission sent again as the last attempt takes the flag back. |
| `LivenessSteps.MovesBackExactly` | internal/domain/onboarding/biometric_service.go:464-475 | A step of a submission takes a session back if and only if it is an effective update, of a pass or of an escalation, of a row that has gone past VIDEO_CALL. |
| `LivenessSteps.LatePassMovesBack` | internal/domain/onboarding/biometric_service.go:464-475 | A run in which every call succeeds, other services move the session only along admissible transitions, and a pass takes such a session back. |
| `LivenessService.CallOutcome` | internal/domain/onboarding/biometric_service.go:83-207 | With a current cached copy, one call sets the flag and moves the step exactly for a convincing submission, moves the step and leaves the flag for a last refusal, and otherwise changes no session; provider errors, missing verdicts, unavailability and refused integrity never convince. |
| `LivenessOutcomes.CallConsumes` | internal/domain/onboarding/biometric_service.go:114-200 | A submission that is let in uses up its challenge and no other, and is judged exactly if it answers a live challenge of its session, device and nonce in time, signed, from an accepted device. |
| `LivenessOutcomes.CacheOutcome` | internal/domain/onboarding/biometric_service.go:387-475 | After a pass or an escalation whose writes take, the cached copy is the row; it falls behind only if the step was written and the cache was not, and no other copy changes. |
| `LivenessOutcomes.IssuedExactly` | internal/domain/onboarding/liveness_challenge_service.go:118-250 | A challenge is issued exactly for a session that is found, unexpired and at BIOMETRIC, to its own device, while nothing blocks the customer and everything the issue needs answers. |
| `LivenessService.DriveIsARun` | internal/domain/onboarding/biometric_service.go:83-207 | A call alone is a run of the interleaved protocol. |
| `LivenessService.Service.ProcessBiometric` | internal/domain/onboarding/biometric_service.go:83-207 | The imperative call ends in the protocol's state and answer. |
| `LivenessService.Service.RefuseVerdict` | internal/domain/onboarding/biometric_service.go:319-401 | A refusal changes nothing, or, for the last one allowed, hands the session to a video call. |
| `LivenessService.Service.RecordPass` | internal/domain/onboarding/biometric_service.go:404-475 | A pass is stored first, then the step and flag are written, then the cache. |
| `Onboarding.TransitionsExactly` | internal/domain/onboarding/entity.go:104-115 | A step moves exactly to the next one, or from TNC over the card selection to OCR. |
| `Onboarding.CheckTransition` | internal/domain/onboarding/entity.go:104-115 | The loop decides that. |
| `EscalationSafety.ResolvedOnceByAnother` | internal/domain/onboarding/escalation_service.go:206-315 | In every interleaving of reviewers a case is resolved at most once, never by the agent who raised it in whatever capitals, and by the claimer if there is one. |
| `EscalationSafety.DecisionsAreFinal` | internal/domain/onboarding/escalation_service.go:278-289 | No continuation of a run changes a resolved or cancelled case or the holder of a claimed one. |
| `EscalationSafety.TransfersAreApproved` | internal/domain/onboarding/escalation_service.go:321-382 | In every reachable state, also with requests stopped half way, each session moved by this path was at VIDEO_CALL when read and its case is stored as approved. |
| `EscalationSafety.SessionsMoveOnlyByApproval` | internal/domain/onboarding/escalation_service.go:358-371 | The only step of a request that touches sessions moves one to CREDENTIALS, for an already approved case. |
| `EscalationSafety.MovesBackExactly` | internal/domain/onboarding/escalation_service.go:367-371 | In every reachable state a step of a request takes a session back if and only if it is an effective update of a row that has gone past CREDENTIALS since it was read at VIDEO_CALL. |
| `EscalationRuns.StaleReadMovesBack` | internal/domain/onboarding/escalation_service.go:367-371 | A run in which every call succeeds, other services move the session only along admissible transitions, and an approval takes such a session back. |
| `EscalationSafety.RefusalsAreTrue` | internal/domain/onboarding/escalation_service.go:390-404 | In every run, an agent whose update changed nothing is told by a second read that answers that the case is closed exactly when it is, and that it is held exactly when it is; and for a resolution the holder is not the agent that asks. |
| `EscalationOutcomes.AnswersExactly` | internal/domain/onboarding/escalation_service.go:159-404 | Exactly when a request gives each of its answers, by the case it finds: Ok for a claim from the queue, the holder's reopening, and a resolution from the queue or by the holder, when the calls it needs answer. |
| `EscalationOutcomes.LeavesExactly` | internal/domain/onboarding/escalation_service.go:243-382 | What it leaves: its case claimed or resolved exactly if the conditional update finds it, its session at CREDENTIALS exactly for an acknowledged approval of an unexpired session at VIDEO_CALL, the cached copy after it, and nothing else. |
| `EscalationOutcomes.HolderResolves` | internal/domain/onboarding/escalation_service.go:278-315 | In every reachable state the holder's well-formed resolution is stored and acknowledged when the calls answer, and an approval moves the session on. |
| `EscalationOutcomes.ClaimerHolds` | internal/domain/onboarding/escalation_service.go:243-276 | And an agent who claims a case of the queue that another raised holds it, and may go on with it. |
| `EscalationRuns.OwnClaimLooksForeign` | internal/domain/onboarding/escalation_service.go:243-260 | For a claim it can be: a run in which an agent who claims a case twice at once holds it and is told that another agent does. |
| `EscalationService.Service.Update` | internal/domain/onboarding/escalation_service.go:159-316 | The imperative request ends in the machine's state and answer. |
| `EscalationService.Service.ResolveCase` | internal/repository/postgres/onboarding_repo.go:1256-1279 | The conditional update: only an open case, and only for its holder if it has one. |
| `EscalationService.Service.ClaimCase` | internal/repository/postgres/onboarding_repo.go:1229-1240 | The conditional update: only from PENDING. |
| `EscalationService.Service.Respond` | internal/domain/onboarding/escalation_service.go:321-382 | An approval moves an unexpired session that may go to CREDENTIALS, and nothing else does. |
| `SignalingHub.HolderIsLastRegistrant` | internal/websocket/hub.go:41-104 | After any history a slot is held by its last registrant, exactly if that client has not unregistered since. |
| `SignalingHub.RoomExactly` | internal/websocket/hub.go:45-52 | A room exists exactly when a slot is held, or the session's last event was the arrival of a client with neither role. |
| `SignalingHub.LateUnregisterChangesNothing` | internal/websocket/hub.go:84-98 | The unregister of a client that no longer holds its slot changes no slot and no room that is in use. |
| `SignalingHub.ReplacedExactly` | internal/websocket/hub.go:55-66 | The clients that are closed are exactly those for whose slot somebody registered after them and before they unregistered. |
| `SignalingHub.PeerExactly` | internal/websocket/hub.go:107-138 | A relay reaches exactly the last registrant of the other side of the sender's session, as long as it has not unregistered. |
| `SignalingHub.TargetExactly` | internal/websocket/hub.go:141-167 | And a message to one side the last registrant of that side. |
| `SignalingHub.Hub.Register` | internal/websocket/hub.go:41-72 | The room table keeps refining the history; the client that held the slot is closed and nobody else. |
| `SignalingHub.Hub.Unregister` | internal/websocket/hub.go:75-104 | The room table keeps refining the history. |
| `SignalingHub.Hub.RelayToPeer` | internal/websocket/hub.go:107-138 | Exactly the other side of the sender's room, if held, is offered the message, of whatever kind. |
| `SignalingHub.Hub.SendToSession` | internal/websocket/hub.go:141-167 | Exactly the named side of the session, if held, is offered the message. |
| `SignalingHub.Hub.BroadcastToRoom` | internal/websocket/hub.go:215-235 | Both sides that are held are offered the message. |
| `SignalingHub.Hub.HandleMessage` | internal/websocket/client.go:166-192 | Signaling goes to the peer, an agent's instruction to the nasabah, and everything else nowhere; so no client is offered more than that. |
| `SignalingHub.Hub.HasRole` | internal/websocket/hub.go:197-212 | Whether the slot is held. |
| `SignalingClient.QueueComesFromThePeer` | internal/websocket/client.go:47-56 | Whatever a client's queue holds on another's behalf came from the opposite role of its own session, never from itself, and, if all came by the dispatch of messages, an instruction only from an agent to a nasabah. |
| `SignalingClient.PlacesOf` | internal/websocket/client.go:47-56 | What was queued is what was offered with some messages dropped, in order. |
| `SignalingClient.Client.Send` | internal/websocket/client.go:47-56 | Queues within the capacity of 64, drops beyond it, and keeps the queue explained by what was offered. |
| `SignalingClient.Client.Take` | internal/websocket/client.go:130-147 | The write pump takes messages in order. |
| `KtpNik.BirthDateExactly` | internal/domain/onboarding/ktp_validation.go:166-200 | For every current year the decoder inverts the encoding of every real date of the last hundred years, and accepts nothing else. |
| `KtpNik.ReadBirthDate` | internal/domain/onboarding/ktp_validation.go:166-200 | The code with its reassigned day and year, and the library's rolling of impossible days, computes that decoder. |
| `KtpNik.StructureExactly` | internal/domain/onboarding/ktp_validation.go:206-226 | A number is well structured exactly when its province is listed and below 95, its serial is not zero, and its birth digits are those of a real date of the last hundred years. |
| `KtpNik.ValidateNik` | internal/domain/onboarding/ktp_parser.go:127-151 | The weaker check: sixteen digits, province 11 to 94, a bounded day and month. |
| `KtpNik.CardFixesTheBirthDigits` | internal/domain/onboarding/ktp_validation.go:239-287 | Two numbers accepted against cards with the same date and sex, in whatever years, agree on all six birth digits. |
| `KtpNik.MisreadIsCaught` | internal/domain/onboarding/ktp_validation.go:239-270 | One wrong character among the six birth digits of an accepted number is rejected. |
| `KtpText.CardReadsBack` | internal/domain/onboarding/ktp_parser.go:20-109 | Printing a card and parsing the text gives the same record, for a city or a regency, any of the three date separators, all trimmed one-line values without a comma in the birthplace and without a colon in the header values, in any capitals of the labels. |
| `KtpNoise.NoisyCardReadsBack` | internal/domain/onboarding/ktp_parser.go:20-109 | It does so too with silent lines anywhere between its own: blank, of a label that is no field, or stray text without a colon, a header word and sixteen digits. |
| `KtpNoise.OtherLabelsAreSilent` | internal/domain/onboarding/ktp_parser.go:61-101 | Blood group, occupation, citizenship and validity are such labels, whatever they say. |
| `KtpNoise.GenderFromTheNumber` | internal/domain/onboarding/ktp_parser.go:104-107 | Without its gender line, and with silent ones anywhere, it gives everything else as printed and the gender its identity number tells. |
| `KtpNoise.BareNumberCardReadsBack` | internal/domain/onboarding/ktp_parser.go:51-57 | A card whose identity number stands on its line without a label reads back as well. |
| `KtpText.PrintedCardPasses` | internal/domain/onboarding/ktp_validation.go:139-159 | Every printed card shows at least the five markers demanded. |
| `KtpText.ParseKtp` | internal/domain/onboarding/ktp_parser.go:20-109 | The loop over the lines computes the parse. |
| `KtpText.Assess` | internal/domain/onboarding/ktp_validation.go:139-159 | The loops count the markers of which some variant occurs. |
| `CardSafety.RunsStayFresh` | internal/domain/onboarding/card_service.go:76-148 | In every interleaving of reads and writes whose steps leave the marker current or owed a refresh, and file no wrong cards under the tables' version: whenever no refresh is outstanding, a read that overlaps nothing answers what the tables hold or fails because they cannot be read, whatever cache calls fail. |
| `CardSafety.SettledStep` | internal/domain/onboarding/card_service.go:216-237 | A step leaves the marker current, or owed a refresh, if and only if a commit with a lost reply finds no marker or one about to be deleted, a marker set to an older version is still owed a refresh by another request, and so is a stale one that could not be deleted. |
| `CardSafety.MarkerStep` | internal/domain/onboarding/card_service.go:672-684 | From every reachable state: after a step that reaches the marker it is current if and only if it was deleted or set to the tables' version; after a commit, if and only if there was none; and no other step changes whether it is. |
| `CardSafety.CurrentStep` | internal/domain/onboarding/card_service.go:110-145 | The entries at the tables' version stay right if and only if no read files under it cards that have changed since the version it listed them from. |
| `CardSafety.EntriesStep` | internal/domain/onboarding/card_service.go:110-145 | The entries of all versions stay what the tables held at theirs if and only if a read files cards of a product and region that were the same at the version it listed and at the one it files them under. |
| `CardSafety.EntriesAreTrue` | internal/domain/onboarding/card_service.go:132-145 | So in every run whose reads do, each cached catalogue is the tables' at its version, whatever becomes of the marker. |
| `CardSafety.ReadsAreFresh` | internal/domain/onboarding/card_service.go:76-148 | A read that overlaps nothing answers what the tables hold, or fails because they cannot be read, if and only if the marker it trusts is current, or it trusts none, or the stale one leads it to no entry and the tables to no cards. |
| `CardSafety.RefreshRecovers` | internal/domain/onboarding/card_service.go:666-684 | From any reachable state of the stores, after a write alone whose refresh took, the next read answers what the tables hold. |
| `CardOutcomes.ReadAnswersExactly` | internal/domain/onboarding/card_service.go:76-148 | Exactly when a read alone fails, is empty, answers from the cache, or answers what the tables list. |
| `CardOutcomes.ReadsAreRemembered` | internal/domain/onboarding/card_service.go:121-145 | A read that had to ask the tables, with its cache writes taking, spares the next read the tables. |
| `CardOutcomes.ReadLeaves` | internal/domain/onboarding/card_service.go:76-148 | It leaves the tables and every other key alone, and sets the marker only if it had none, to the version of the tables. |
| `CardOutcomes.WriteLeaves` | internal/domain/onboarding/card_service.go:216-237 | A write succeeds exactly if its transaction does; then the tables hold the cards at a later version, and the marker is set, deleted, or left as it was, by the calls that took. |
| `CardOutcomes.WriteIsRead` | internal/domain/onboarding/card_service.go:628-684 | After a write alone whose marker was set, a read alone gives the cards just written. |
| `CardSerial.SerialWritesStayFresh` | internal/domain/onboarding/card_service.go:76-148 | From the first start: if writes overlap neither reads nor each other and each refresh sets or deletes the marker, then whatever other cache calls fail every cached catalogue is always the tables' at its version, and while no write is under way a read answers what they hold. |
| `CardSerial.SerialRunsAreOrderly` | internal/domain/onboarding/card_service.go:216-237 | Such runs meet the conditions of RunsStayFresh and EntriesAreTrue. |
| `CardSafety.StartsFresh` | internal/domain/onboarding/card_service.go:76-148 | And so does the first start. |
| `CardRuns.CrossedRefreshes` | internal/domain/onboarding/card_service.go:628-657 | A run in which every call succeeds, two writes refresh the marker in the wrong order, and a later read answers the first one's cards. |
| `CardRuns.LateMarkStays` | internal/domain/onboarding/card_service.go:121-129 | The same with a read that marks the version it read before a write. |
| `CardRuns.OverlapPoisons` | internal/domain/onboarding/card_service.go:110-145 | A run in which every call succeeds and a read that overlaps a write caches the old cards under the new version, for later reads to answer. |
| `CardRuns.StaleMarkerMislabels` | internal/domain/onboarding/card_service.go:225-233 | A run in which the marker can be neither set nor deleted and the next miss caches new cards under the old version. |
| `CardMachine.GetIsDriven` | internal/domain/onboarding/card_service.go:76-148 | The steps of a read taken without interruption are the read in one piece, early returns included. |
| `CardMachine.WriteIsDriven` | internal/domain/onboarding/card_service.go:216-237 | And the steps of a write the write in one piece. |
| `CardMachine.DriveIsARun` | internal/domain/onboarding/card_service.go:76-148 | A call alone is a run of the interleaved machine. |
| `CardService.Service.GetCatalog` | internal/domain/onboarding/card_service.go:76-148 | The imperative read ends in the machine's state and answer. |
| `CardService.Service.RefreshVersion` | internal/domain/onboarding/card_service.go:672-684 | The marker is set, or, if that reports an error, deleted. |
| `CardService.Service.WriteCards` | internal/domain/onboarding/card_service.go:216-237 | The write, the version, and the refresh of the marker, when nobody comes between. |
| `CardCatalog.ResolveDefaultCard` | internal/domain/onboarding/card_service.go:351-365 | The first selectable default, else the first selectable card, else none because none is selectable. |
| `CardCatalog.CatalogCurrency` | internal/domain/onboarding/card_service.go:370-377 | The first currency stated, never empty. |
| `TerminalSafety.OnlineWasEarned` | internal/domain/cs/terminal_service.go:307-335 | In every reachable state, with checks and writes interleaved, an ONLINE terminal's last transition was an activation by its bound agent, whose check had found all three gates of that agent's session passed within the eight hours before. |
| `TerminalSafety.ReadyWasEarned` | internal/domain/cs/terminal_service.go:379-394 | In every reachable state a READY terminal's last transition was a promotion, and every promotion was decided with all three gates of a session at that terminal passed within the eight hours before. |
| `TerminalSafety.ReadyExactly` | internal/domain/cs/terminal_service.go:379-394 | A gate of a live session, taken in one piece, leaves the terminal READY exactly if it was, or if it was not ONLINE and that gate was the last to pass; and changes no other. |
| `TerminalSafety.OnlineOnce` | internal/repository/postgres/cs_terminal_repo.go:76-99 | No agent is ONLINE at two terminals. |
| `TerminalSafety.OnlyActivationGoesOnline` | internal/domain/cs/terminal_service.go:379-394 | No gate, promotion, login or time makes a terminal ONLINE. |
| `TerminalSafety.OffUntilActivated` | internal/domain/cs/agent_session_service.go:208-231 | After a deactivation, or a logout whose write succeeds, the terminal is refused in every continuation without a new activation. |
| `TerminalSessions.OnlineSessionLivesExactly` | internal/repository/postgres/cs_session_repo.go:26-68 | The session whose activation made a terminal ONLINE, live at some moment of the run, is live at its end exactly when it has not expired and since then neither its logout nor another login of its agent took effect. |
| `TerminalSessions.MannedStep` | internal/domain/cs/agent_session_service.go:208-231 | A step keeps ONLINE meaning a live session if and only if it is no login of the terminal's agent, no logout of its session whose terminal write fails, no expiry, and no activation written for a session that is over. |
| `TerminalSessions.OnlineIsLiveExactly` | internal/domain/cs/terminal_service.go:365-377 | Throughout a run ONLINE means a live session if and only if every step is of that kind. |
| `TerminalSessions.SupersededStaysOnline` | internal/repository/postgres/cs_session_repo.go:26-68 | A run in which a login elsewhere ends the old session and leaves its terminal ONLINE. |
| `TerminalGates.Readiness` | internal/domain/cs/terminal_service.go:249-304 | The loops list every gate with its state, and allow activation exactly when all three are passed and unexpired. |
| `TerminalService.Service.Activate` | internal/domain/cs/terminal_service.go:307-335 | It succeeds exactly when the session is live, its gates are passed and the agent is not busy; otherwise nothing changes, each refusal has its own condition, and the pending gates are exactly the unpassed ones. |
| `TerminalService.Service.RecordGate` | internal/domain/cs/terminal_service.go:106-243 | The gate's row is replaced; then the terminal is READY exactly if it was, or was not ONLINE and all three gates are now passed; it never becomes ONLINE. |
| `TerminalService.Service.Deactivate` | internal/domain/cs/terminal_service.go:341-354 | The terminal is refused for every agent. |
| `TerminalService.Service.Logout` | internal/domain/cs/agent_session_service.go:208-231 | The session ends, and the terminal with it if its write succeeds. |
| `TerminalService.Service.AssertAgentOnline` | internal/domain/cs/terminal_service.go:365-377 | ONLINE and bound to this agent. |
| `AuditPaging.PagingIsComplete` | internal/domain/cs/audit.go:163-194 | Following the cursors from the start shows every matching event exactly once, newest first, for every page size. |
| `AuditPaging.RestBehindCursor` | internal/domain/cs/audit.go:188-192 | Behind a page's cursor lies exactly the rest of the list, and it is smaller. |
| `AuditPaging.NewEventsDoNotDisturb` | internal/repository/postgres/cs_audit_repo.go:80-82 | Events not older than the cursor do not change the pages still to come. |
| `AuditPaging.List` | internal/domain/cs/audit.go:163-194 | One page: the clamped number of rows, whether there is more, and the cursor of the last row. |
| `AuditPaging.Repository.Query` | internal/repository/postgres/cs_audit_repo.go:51-92 | The first rows of the filtered table in descending order. |
| `AuditPaging.ReadAll` | internal/domain/cs/audit.go:163-194 | The caller's loop ends, sees all pages, and only the last is short. |
| `PinSafety.FailuresAreLocked` | internal/domain/auth/service.go:227-295 | However calls overlap and whatever the cache evicts: when failures are counted and lock when due, the failed comparisons since the last reset are at most the allowance, the lock periods started since, and the calls under way. |
| `PinSafety.TallyStep` | internal/domain/auth/service.go:227-243 | A step keeps every failure accounted for, and exactly the locks past the allowance started or about to, if and only if its failure is counted, locks when due, and its reset finds no failure under way. |
| `PinSafety.TalliedExactly` | internal/domain/auth/service.go:227-295 | Throughout a run they are if and only if every step is of that kind. |
| `PinSafety.FailuresAreLockedExactly` | internal/domain/auth/service.go:227-295 | In every such run the bound of FailuresAreLocked is met: once a lock has started or is due, the failures since the last reset are exactly the allowance, the lock periods started and the calls under way. |
| `PinSafety.OverlapsExactly` | internal/domain/auth/service.go:126-149 | While the cache keeps what is needed, a lock period overlaps the one before exactly when, at its start, a lock still stands that was set since its own call looked for one. |
| `PinSafety.OrderStep` | internal/repository/redis/lockout.go:52-83 | For every delay under a day: a step keeps lock periods apart with counts that grow while the last is less than a day less the delay old, and known to the cache, if and only if it sets its lock while none stands, with a count of its own or later that was refreshed no longer ago than the delay, and above the last lock's of that time, and evicts no lock that stands and no count of that time. |
| `PinSafety.OrderlyExactly` | internal/repository/redis/lockout.go:52-83 | Throughout a run they are if and only if every step is of that kind. |
| `PinSafety.AloneIsOrderly` | internal/domain/auth/service.go:227-295 | A call that nobody comes between since it looked is of that kind, whatever time its steps take, if the numbering of its lock and the setting are no further apart than the delay. |
| `PinSafety.FourLocksSpan` | internal/repository/redis/lockout.go:52-83 | Any four consecutive lock periods that are in order span at least twenty-five hours less the delay. |
| `PinSafety.GuessingIsSlow` | internal/repository/redis/lockout.go:14-18 | So in every such run, whether or not failures are counted, every three lock periods after the first take twenty-five hours less the delay between numbering a lock and setting it, for every delay under a day. |
| `PinSafety.FailuresTakeTime` | internal/domain/auth/service.go:227-295 | In every such run that also counts its failures: beyond the allowance, the calls under way and the first, every three failed comparisons since the last reset take twenty-five hours less that delay. |
| `PinRuns.BoundIsMet` | internal/repository/redis/lockout.go:52-83 | No more can be said: for every delay up to a day less half an hour, a run from the first start in which every call succeeds and every step is of that kind, and four lock periods take exactly twenty-five hours less the delay. |
| `PinRuns.BurstLocksAtOnce` | internal/domain/auth/service.go:126-176 | For every number of calls, a run in which every call succeeds, all of them compare a wrong PIN, and all locks past the allowance start at the same moment. |
| `PinRuns.DayIsShortened` | internal/repository/redis/lockout.go:52-83 | A run in which every call succeeds and a lock of a day is replaced by one of half an hour. |
| `PinOutcomes.AnswersExactly` | internal/domain/auth/service.go:99-295 | Exactly when a call alone gives each of its answers, and how many attempts a wrong PIN is told remain. |
| `PinOutcomes.CountExactly` | internal/domain/auth/service.go:227-310 | The count is cleared by a right PIN at a login or a stored change, one up for a wrong one, and otherwise as it was, verifications included. |
| `PinOutcomes.LockExactly` | internal/repository/redis/lockout.go:52-83 | Only a failure at the maximum sets a lock, for half an hour or, from the third of a day on, a day; the count of locks, the lock and the row's copy are written as far as the calls take. |
| `PinOutcomes.LoginGivesAttemptsBack` | internal/domain/auth/service.go:297-301 | In every run, after a login that answers Right and whatever time passes, the next wrong PIN is told one attempt less than the maximum. |
| `PinOutcomes.VerifyKeepsFailures` | internal/domain/auth/service.go:389-461 | After a verification that answers Right the failures before it still count towards the lock. |
| `PinLockout.TryIsDriven` | internal/domain/auth/service.go:99-193 | The steps of a call taken without interruption are the call in one piece, early returns included. |
| `PinLockout.DriveIsARun` | internal/domain/auth/service.go:99-193 | A call alone is a run of the interleaved machine. |
| `PinService.Service.HandleFailedPin` | internal/domain/auth/service.go:227-295 | Branches on the count returned by the row, locks at the maximum, and copies the lock to the row. |
| `PinService.Service.LockUser` | internal/repository/redis/lockout.go:52-83 | Half an hour, or a day from the third lock of a sliding day. |
| `PinService.Service.LoginByPin` | internal/domain/auth/service.go:99-193 | Both locks are looked at before the comparison; it answers Right exactly for a right PIN whose reset is done, and then the count is zero. |
| `PinService.Service.VerifyPin` | internal/domain/auth/service.go:389-461 | Only the cached lock is looked at, and success resets nothing. |
| `PinService.Service.ChangeCredential` | internal/domain/auth/service.go:470-567 | Only the cached lock is looked at; every failure short of a lock answers a mismatch; a change that is stored resets the count, best effort. |

## Left out

- Revocations of sessions taken apart: a logout, a logout everywhere and a change of credential are one step each, row and markers, also where refreshes and checks are taken store call by store call.
- A pipeline of the cache taking effect in part: MarkActive, RevokeActive and the numbering of a lock take effect whole or not at all. An INCR of the count of locks without its EXPIRE would leave a count that never lapses.
- The cached session hash of the auth service (StoreSession, InvalidateAllUserSessions): IsSessionActive does not read it.
- Services constructed without a cache, a revocation set or an idempotency store: the router always provides them.
- Cryptography: password hashing, RSA, ECDSA, AES, SHA-256 and token signing are names or inputs; verifying the signature of a liveness payload is an input of the call.
- Parsing and trimming of request fields, HTTP, JSON, logging, metrics, audit rows and notifications: they do not change an outcome.
- The tracker of liveness failures and cooldowns: whether the customer is blocked is an input, because its three counters add only easy members.
- Object storage of the face photo and the decoding of JPEG frames: a frame is its 64 grey samples, over reals; where the samples are taken is not modelled.
- Play Integrity, the face model and Dukcapil: their answers are inputs.
- Unicode: text is ASCII, in white space and in capitals, also for comparing agent ids.
- Creating an inquiry: provider limits, phone lookup and ownership of the account; the model starts from the inquiry that was stored.
- How a session came to the step it is first seen at: a run may start with a session at any step.
- Cancelling an escalation, and every other service that writes an onboarding session: they are events of the environment.
- SetCard, feature flags, product validity and the administrators' card forms: they add only easy members.
- Agent login failures, password rules, scope changes and shifts of the agent session service: the session half of the terminal machine is modelled.
- The write and read pumps, deadlines and pings of the signaling client: only the queue and the close flag matter to the hub.
- The readiness of a terminal read store call by store call: session, terminal and gates are one read, for a promotion and for an activation; the writes before and after it are steps of their own.
- The step transition of the onboarding session service (TransitionStep), which would set the biometric flag on a move to the video call: nothing but tests calls it.
- The one-minute expiry of the catalogue's version marker is the loss of the marker at any moment; that it comes within a minute is not modelled.
- Unlocking an account by hand, and rate limits in front of the PIN calls, which bound how many of them can overlap: no call of the modelled services unlocks.
