# Protocols of the account backend, verified

This project models the parts of the account backend in which many requests meet in one database, together with three
self-contained algorithms (the admin search, the rate limiter and the mail retry loop), and proves what they promise over
every run, every interleaving and every input.

How the protocols are modelled:

- A table is a map. Each SQL statement is one atomic step together with the clock reading bound to it. The repositories
  that update rows in place are classes whose methods are proved against functions on those maps.
- A request in flight is a program counter with whatever it has read so far. A run is a sequence of events, that is any
  interleaving of handler steps, background work, crashes (a handler is dropped between two steps) and the passing of time
  (the clock never goes back). A statement the database reports as failed has no effect.
- Each state also carries a history (`Story`, `Record`, `Ledger`, `History`) that outlives the rows, so that a theorem can
  speak about everything a run ever did. No step decides anything by the history alone, except that generated ids and
  tokens are fresh with respect to it.
- Hashes are treated as injective: a token and its hash are the same value. Times are integers in microseconds.

Modules: `QrLogin`, `JobQueue`, `AdminGuard`, `OneTimeTokens`, `TwoFactor`, `OAuth`, `ExpirySweep`, `LoginLockout`,
`ResetLimit`, `RateLimit`, `AdminSearch`, `Sessions`, `MailOutbox`; `Runs` holds the runs of a state machine and the ways
to reason about all of them, `Common` and `Quotients` shared vocabulary and the few facts behind the timing bounds.

Seven statements one might expect are false of the code. Each has a failing case, and the condition under which it holds
is proved to be exact:

- *An active admin always remains.* Deleting a user reads the guard flag before the transaction. In any run that still has
  an active admin, the next event loses the last one if and only if it commits a change of the only active admin, either by
  a delete whose flag has gone stale, or by a guarded transaction that had counted before some delete with a stale flag
  committed (`AdminGuard.LastAdminLostIff`). Both happen (`AdminGuard.StaleDeleteLosesLastAdmin`,
  `AdminGuard.GuardedDeleteLosesLastAdmin`); without a stale flag neither does (`AdminGuard.AdminAlwaysRemains`).
- *At most max + floor(T / lockout) wrong passwords are compared within time T.* With at most k >= 1 logins in flight and at
  most l of them lost between comparison and write (a cancelled request, a failed write), this is true of every run if and
  only if k = 1 and l = 0 (`LoginLockout.LimitHoldsIff`). In general it is max + k - 1 + k * floor(T / lockout) + l, and a
  run attains that at T = 0 for every k and l.
- *The cleanup job is scheduled as one chain.* With at most k `ensure_scheduled` calls between their test and their insert
  at a time there are at most k chains; every run keeps to one if and only if k is at most 1 (`JobQueue.SingleChainIff`,
  `JobQueue.OverlappingStarts`).
- *At most three reset links per account and hour.* True of every run with at most k `forgot` calls of the account in
  flight if and only if k is at most 1 (`ResetLimit.ThreePerHourIff`); with k it is k + 2, and a run attains that.
- *`issue` leaves one unused token per user and purpose.* True if and only if no token of that kind inserted since the
  call's own revocation is still unused (`OneTimeTokens.IssueLeavesOneIff`); two overlapping calls leave two
  (`OneTimeTokens.OverlappingIssues`).
- *The expiry sweep is invisible to every operation.* It is to all but two. A lookup by id differs exactly for sessions that
  expired before the highest cutoff so far (`ExpirySweep.FindShowsSweepIff`), the answer of `record_wrong_code`, which
  ignores the expiry, exactly for those of them on their last try (`ExpirySweep.WrongCodeShowsSweepIff`), and a run shows
  both (`ExpirySweep.LateApprovalSeesSweep`).
- *The pages of a search cover it.* Page numbers end at 2^32 - 1: true if and only if the result is not longer than that
  many pages (`AdminSearch.AllPagesCoverIff`, `AdminSearch.SomeResultIsCutOff`).

Where code and documentation disagree, the code is followed: src/modules/qr_login/entity.rs:5 says a session can be
rejected at any point before it is consumed, while the statements only reject a scanned one.

## Model

| member | source | states |
|---|---|---|
| `QrLogin.OneTokenForTheScanner` | src/modules/qr_login/services/poll_session.rs:13-58 | in every interleaving a session follows pending, scanned, then rejected or approved then consumed, and yields at most one access token, to the holder of the secret, for the one user who scanned it and submitted its code before expiry |
| `QrLogin.WrongCodesBounded` | src/modules/qr_login/repository.rs:102-115 | all successful scans and counted wrong codes are by one user; fewer than 3 wrong codes while scanned, at most 2 if approved, and the third is what rejects it |
| `QrLogin.WrongCodesAccountedFor` | src/modules/qr_login/services/approve_session.rs:9-31 | in every run each wrong code submitted for a session was counted, or its handler is under way or was dropped before its write, or the session was no longer waiting for an answer when it wrote |
| `QrLogin.WrongCodeCounts` | src/modules/qr_login/services/approve_session.rs:13-22 | from a quiet state a wrong code adds one attempt and the third rejects the session |
| `QrLogin.ThreeWrongCodesCancel` | src/modules/qr_login/services/approve_session.rs:13-22 | three wrong codes in a row cancel a fresh scanned session |
| `QrLogin.TokenAccountsAdmissible` | src/modules/qr_login/services/poll_session.rs:29-58 | in every run a token is issued only for an account read as active, and as verified where that is required |
| `QrLogin.RunKeepsInv` | src/modules/qr_login/repository.rs:71-128 | every reachable state: rows agree with their history, and what a handler read may be stale but is never wrong about code, secret, expiry or scanner |
| `QrLogin.ScanKeepsInv` | src/modules/qr_login/services/scan_session.rs:9-33 | each step of `scan`, including the re-read after a lost race, keeps the invariant |
| `QrLogin.ApproveKeepsInv` | src/modules/qr_login/services/approve_session.rs:9-31 | each step of `approve`, wrong code or right, keeps the invariant |
| `QrLogin.RejectKeepsInv` | src/modules/qr_login/services/reject_session.rs:8-15 | each step of `reject` keeps the invariant |
| `QrLogin.PollKeepsInv` | src/modules/qr_login/services/poll_session.rs:13-58 | each step of `poll` keeps the invariant: the token is issued only by the handler whose consume won |
| `QrLogin.TrailsOnlyGrow` | src/modules/qr_login/repository.rs:71-128 | statuses and tokens recorded at one moment are a prefix of those recorded at any later one |
| `QrLogin.SignInWorks` | src/modules/qr_login/services/mod.rs:60-79 | the intended path is reachable: create, scan, approve with the right code, poll with the secret, token issued |
| `QrLogin.RejectWorks` | src/modules/qr_login/services/reject_session.rs:8-15 | the scanner can refuse a live session, which is then rejected |
| `QrLogin.ScanAgainWorks` | src/modules/qr_login/services/scan_session.rs:9-33 | a second scan by the scanner is answered like the first, one by anybody else is not, and the session stays as it is |
| `QrLogin.LostRaceIsReread` | src/modules/qr_login/services/scan_session.rs:9-33 | a scan that loses its guarded write reads again and is answered exactly if the winner was the same user |
| `QrLogin.QrRepository.Insert` | src/modules/qr_login/repository.rs:27-57 | sessions a day past expiry go, the new one is pending and unscanned, all others unchanged |
| `QrLogin.QrRepository.MarkScannedBy` | src/modules/qr_login/repository.rs:71-82 | one winner: a scan that wins rules out every later scan, and from then on exactly the scanner can answer; a scan that loses changes nothing |
| `QrLogin.QrRepository.ResolveTo` | src/modules/qr_login/repository.rs:85-98 | an answer is final: no second answer and no further wrong code ever count, and the session can be collected exactly if approved and until it expires; a refused answer changes nothing |
| `QrLogin.QrRepository.CountWrongCode` | src/modules/qr_login/repository.rs:102-115 | while scanned, one more attempt, rejected exactly from the third on; answers whether that one cancelled the session; other sessions untouched |
| `QrLogin.QrRepository.ConsumeOnce` | src/modules/qr_login/repository.rs:118-128 | single use: once collected, no later collect, scan, answer or wrong code can succeed; other sessions untouched |
| `JobQueue.JobBounds` | src/infra/jobs/worker.rs:91-118 | with any number of workers and crashes a job is dispatched at most 5 times, is dead exactly when 5 failures were recorded, and then at least 37 s after the first failure |
| `JobQueue.OneClaimant` | src/infra/jobs/repository.rs:71-89 | a job is held by at most one claimant, is running meanwhile, and the claimant's copy equals the row until it writes back |
| `JobQueue.FinishedForGood` | src/infra/jobs/repository.rs:91-127 | once succeeded or dead, a job's record is the same after every continuation of the run |
| `JobQueue.FinishedIsFinal` | src/infra/jobs/repository.rs:91-127 | nobody holds a succeeded or dead job and no event changes it |
| `JobQueue.CleanupChainConserved` | src/infra/jobs/worker.rs:121-136 | in every run with at most k `ensure_scheduled` calls between test and insert at a time: pending cleanup rows plus running ones without a successor are at most k, and at least 1 from the first scheduling until a cleanup job goes dead, across crashes and restarts; for k = 1 exactly 1 |
| `JobQueue.SingleChainIff` | src/infra/jobs/repository.rs:48-66 | every run keeps to one chain if and only if at most one such call is between its test and its insert at a time |
| `JobQueue.OverlappingStarts` | src/infra/jobs/repository.rs:48-66 | for every k a run in which k calls test before any inserts starts k chains |
| `JobQueue.CleanupRunsHourly` | src/infra/jobs/worker.rs:91-136 | a due cleanup is claimed, swept, succeeded by a run exactly an hour later, and done; no other job is touched |
| `JobQueue.FailureIsRecorded` | src/infra/jobs/worker.rs:91-118 | a failed run adds one attempt and one recorded failure, and the job is dead at the fifth or pending until its backoff ends |
| `JobQueue.OtherKindsDoNotCount` | src/infra/jobs/repository.rs:50-66 | only unfinished jobs of the very kind keep it from being scheduled |
| `JobQueue.RunKeepsChain` | src/infra/jobs/worker.rs:50-53 | chains and calls about to start one are together at most k in every reachable state |
| `JobQueue.RunKeepsInv` | src/infra/jobs/worker.rs:50-118 | rows, records, spacing of failures and claimants' copies agree in every reachable state |
| `JobQueue.Backoff` | src/infra/jobs/worker.rs:99-102 | the index is in bounds for every attempt number; the schedule is 1 s, 4 s, then 16 s for every later attempt |
| `JobQueue.EarliestOf` | src/infra/jobs/repository.rs:75-79 | exactly min(limit, due) jobs are chosen, none of them due later than one left behind |
| `JobQueue.JobsRepository.Enqueue` | src/infra/jobs/repository.rs:26-46 | the job can be claimed exactly from its time on, its kind is scheduled, and no other job can be claimed sooner or later than before |
| `JobQueue.JobsRepository.EnsureScheduled` | src/infra/jobs/repository.rs:50-66 | a job of the kind is pending or running afterwards; one is added only if there was none |
| `JobQueue.JobsRepository.ClaimBatch` | src/infra/jobs/repository.rs:71-89 | min(limit, due and unlocked) due jobs, earliest first, become running; claimants get exact copies; other rows unchanged |
| `JobQueue.JobsRepository.MarkSucceeded` | src/infra/jobs/repository.rs:91-98 | the job can never be claimed again and is prunable exactly after a day; every other row is untouched |
| `JobQueue.JobsRepository.RescheduleOrKill` | src/infra/jobs/repository.rs:102-127 | at the last attempt the job can never be claimed again and is prunable exactly after 30 days, otherwise it can be claimed exactly from the end of its backoff on |
| `JobQueue.JobsRepository.PruneHistory` | src/infra/jobs/cleanup.rs:74-84 | exactly succeeded rows over a day old and dead rows over 30 days old go |
| `AdminGuard.AdminAlwaysRemains` | src/modules/users/repositories/admin_changes.rs:19-95 | in every interleaving of update and delete transactions an active admin remains, unless an unguarded delete committed on a row that had meanwhile become an active admin |
| `AdminGuard.RunKeepsInv` | src/modules/users/repositories/admin_changes.rs:19-95 | in every interleaving a guarded transaction past its count holds the advisory lock and still finds another admin, unless a delete with a stale flag committed since |
| `AdminGuard.LastAdminLostIff` | src/modules/users/repositories/admin_changes.rs:64-95 | in every run that still has an active admin, the next event loses the last one if and only if it commits a change of the only active admin by a delete with a stale flag or by a guarded transaction that had counted before such a delete committed |
| `AdminGuard.StaleDeleteLosesLastAdmin` | src/modules/users/services/delete_user.rs:18-25 | a reachable run in which the commit of an unguarded delete with a stale flag loses the last admin |
| `AdminGuard.GuardedDeleteLosesLastAdmin` | src/modules/users/repositories/admin_changes.rs:64-95 | a reachable run in which the commit of a guarded delete loses the last admin, after a stale one removed the admin it had counted |
| `AdminGuard.HarmlessChange` | src/modules/users/services/update_user.rs:33-50 | an update that neither demotes nor deactivates, or a delete of a non-admin, takes no active admin away |
| `AdminGuard.StrippingChange` | src/modules/users/repositories/admin_changes.rs:43-56 | a demotion, a deactivation or a delete takes the target out of the active admins and nobody else |
| `AdminGuard.ChangeMeans` | src/modules/users/repositories/admin_changes.rs:43-56 | what an update or delete does to a live row field by field; missing, deleted and other rows stay as they are |
| `AdminGuard.NobodyLocksThemselvesOut` | src/modules/users/policy.rs:13-31 | in every run nobody is deleted, demoted or deactivated at their own request |
| `AdminGuard.OneWriterPerRow` | src/modules/users/repositories/admin_changes.rs:54-57 | in every run at most one transaction at a time has written to a row |
| `AdminGuard.UsersRepository.Change` | src/modules/users/repositories/admin_changes.rs:19-95 | run alone: refused exactly when guarded and no other active admin exists, otherwise only the live target row changes |
| `AdminGuard.UsersRepository.CountActiveAdmins` | src/modules/users/repositories/admin_changes.rs:97-103 | the number of active admins, and with it which guarded changes would be refused: every one at zero, only that of the single admin at one, none above |
| `OAuth.TokenTracesBack` | src/modules/oauth/services/exchange_code.rs:15-40 | at most one access token per grant, for the user the grant was written for, claimed within 60 s of being written; the grant comes from a state of the same provider, claimed within 10 minutes of its start, not started for linking, and that user had been linked to the provider account that came back |
| `OAuth.GrantsAreInjective` | src/modules/oauth/services/handle_callback.rs:166-193 | two grants never come from one state |
| `OAuth.LinkingNeverSignsIn` | src/modules/oauth/services/handle_callback.rs:142-163 | a state started for linking links only the user who started it and never leads to a grant |
| `OAuth.SignInLinksOwnerOnly` | src/modules/oauth/services/handle_callback.rs:67-140 | every grant's user had that provider account linked from the start, or linked it while signed in, or was linked by a sign-in flow of that provider in which the provider vouched for a verified address held by that user's account, which the callback created or read as active and verified |
| `OAuth.GrantsAndTokensAdmissible` | src/modules/oauth/services/handle_callback.rs:166-193 | in every run a grant is written only for an account read as active, and as verified where that is required, and a token issued only for an account read as active |
| `OAuth.LinksStayWhile` | src/modules/oauth/services/handle_callback.rs:142-163 | over any run a provider account stays with its user until that user unlinks the provider |
| `OAuth.SignInWorks` | src/modules/oauth/services/handle_callback.rs:31-193 | a linked, active and verified account that calls back within ten minutes and exchanges within a minute reaches its access token |
| `OAuth.StartWorks` | src/modules/oauth/services/mod.rs:67-95 | a flow can be finished for exactly ten minutes |
| `OAuth.ClaimWorks` | src/modules/oauth/services/handle_callback.rs:31-50 | every callback uses its state up and goes on exactly at the right provider and without an error from there |
| `OAuth.IdentityDecides` | src/modules/oauth/services/handle_callback.rs:67-107 | which way a callback goes, by whether the account is linked, whether a user is linking, and whether the email is verified |
| `OAuth.LinkingWorks` | src/modules/oauth/services/handle_callback.rs:90-99 | a signed-in active user gets a free provider account linked |
| `OAuth.SignUpWorks` | src/modules/oauth/services/handle_callback.rs:124-138 | a new address gets an account of its own, active, verified and linked |
| `OAuth.KnownAddressWorks` | src/modules/oauth/services/handle_callback.rs:108-123 | a known address is linked exactly if its account is active and verified |
| `OAuth.GrantWorks` | src/modules/oauth/services/handle_callback.rs:166-193 | an active and verified account gets a grant that works for exactly a minute |
| `OAuth.ExchangeWorks` | src/modules/oauth/services/exchange_code.rs:15-40 | exchanging a working grant issues its user's token and uses the grant up |
| `OAuth.RunKeepsInv` | src/modules/oauth/services/handle_callback.rs:31-193 | a callback owns the state it claimed, and tables and history agree, in every interleaving of starts, callbacks, exchanges, unlinks and deletions |
| `OAuth.RunKeepsTraced` | src/modules/oauth/services/handle_callback.rs:67-163 | in every interleaving each link made and each callback on its way to one goes back to the linking user or to a vouched address |
| `OAuth.StartKeepsInv` | src/modules/oauth/services/mod.rs:67-95 | starting a flow, for sign-in or linking, keeps the invariant |
| `OAuth.OAuthRepository.AddState` | src/modules/oauth/repositories/states.rs:10-40 | the new state can be claimed exactly until it expires, every other state as before, and exactly the expired ones go |
| `OAuth.OAuthRepository.TakeState` | src/modules/oauth/repositories/states.rs:43-52 | a state works once and only before it expires |
| `OAuth.OAuthRepository.AddGrant` | src/modules/oauth/repositories/grants.rs:9-30 | the new grant can be claimed exactly until it expires, for that user, every other grant as before, and exactly the expired ones go |
| `OAuth.OAuthRepository.TakeGrant` | src/modules/oauth/repositories/grants.rs:33-43 | a grant works once, before it expires, and answers whom it was written for |
| `OAuth.OAuthRepository.AddIdentity` | src/modules/oauth/repositories/identities.rs:38-60 | no existing link is taken over, the provider account is linked to someone afterwards, and the answer says whether anything changed |
| `OAuth.OAuthRepository.RemoveIdentity` | src/modules/oauth/repositories/identities.rs:62-70 | every identity of that user at that provider goes, and no other; answers whether any did |
| `OneTimeTokens.OnlyNewestLinkWorks` | src/modules/auth/services/one_time_tokens.rs:27-50 | with calls of a kind one at a time, whatever is redeemed, revoked, swept or dropped between their statements: a token that still works is the last one inserted for its user and purpose and the only unused one |
| `OneTimeTokens.IssueLeavesOneIff` | src/modules/auth/services/one_time_tokens.rs:27-40 | in every interleaving of calls, each in its two statements, with redeems, revocations and sweeps: the inserted token is the only unused one of its kind if and only if every token of that kind inserted since the call's own revocation has been used or deleted |
| `OneTimeTokens.RunKeepsOnlyLatest` | src/modules/auth/repositories/auth_token.rs:20-55 | with calls of a kind one at a time, every unused token is the latest of its user and purpose in every reachable state |
| `OneTimeTokens.RunKeepsInv` | src/modules/auth/repositories/auth_token.rs:20-95 | while a call is between its statements, only tokens inserted since its revocation can be unused |
| `OneTimeTokens.OverlappingIssues` | src/modules/auth/services/one_time_tokens.rs:27-40 | a reachable run in which two overlapping calls leave two working tokens of one user and purpose |
| `OneTimeTokens.OneTimeTokenService.IssueToken` | src/modules/auth/services/one_time_tokens.rs:27-40 | exactly one unused token per user and purpose afterwards, which works for exactly its lifetime; all other rows untouched |
| `OneTimeTokens.OneTimeTokenService.Redeem` | src/modules/auth/services/one_time_tokens.rs:43-50 | succeeds exactly for an unused, unexpired token of that purpose, which never works again |
| `OneTimeTokens.OneTimeTokenService.Peek` | src/modules/auth/services/one_time_tokens.rs:56-63 | finds a token exactly when redeeming at that moment would change the table, and answers with its row, still unused |
| `OneTimeTokens.OneTimeTokenService.Invalidate` | src/modules/auth/repositories/auth_token.rs:45-55 | no unused token of that user and purpose is left |
| `OneTimeTokens.CountIgnoresUse` | src/modules/auth/repositories/auth_token.rs:97-111 | revoking and redeeming never change any count |
| `OneTimeTokens.CountsItsOwn` | src/modules/auth/repositories/auth_token.rs:97-111 | issuing raises by one the counts of its own user and purpose that reach up to it, and no other count |
| `OneTimeTokens.SpendWorks` | src/modules/auth/services/one_time_tokens.rs:43-50 | spending a working token ends it for good and no other one |
| `OneTimeTokens.RevokeWorks` | src/modules/auth/services/one_time_tokens.rs:65-67 | revoking ends exactly the tokens of that user and purpose |
| `TwoFactor.OneAccessTokenPerPending` | src/modules/auth/services/totp/verify_login.rs:15-59 | in every interleaving a pending token yields at most one access token, only after being redeemed, for its own user, whose password had been accepted |
| `TwoFactor.TokenNeedsSecondFactor` | src/modules/auth/services/totp/verify_login.rs:33-45 | every access token was preceded by a right authenticator code for its pending token, or by a recovery code of its user claimed for it |
| `TwoFactor.PendingTokensInjective` | src/modules/auth/services/session/login.rs:67-80 | no two pending tokens come from one accepted password |
| `TwoFactor.BatchGivesAtMostEight` | src/modules/auth/repositories/totp_recovery_code.rs:19-53 | a batch of recovery codes gives at most 8 successful claims, however they interleave |
| `TwoFactor.EightRecoverySignInsPerBatch` | src/modules/auth/repositories/totp_recovery_code.rs:19-53 | over any run one batch of recovery codes completes at most 8 sign-ins |
| `TwoFactor.WrongCodeSpendsNothing` | src/modules/auth/services/totp/verify_login.rs:21-41 | no step up to a wrong code changes tokens, codes or anything but the handler itself |
| `TwoFactor.WrongAttemptLeavesNoTrace` | src/modules/auth/services/totp/verify_login.rs:21-41 | a whole attempt with a wrong code returns to exactly the state it started from |
| `TwoFactor.RightCodeSignsIn` | src/modules/auth/services/totp/verify_login.rs:42-58 | a right code issues one access token for the pending token's user and spends the pending token |
| `TwoFactor.RecoveryCodeSignsIn` | src/modules/auth/services/totp/verify_login.rs:33-58 | an unused recovery code of the user signs in as well, and both it and the pending token are spent |
| `TwoFactor.TurnedAway` | src/modules/auth/services/totp/verify_login.rs:21-31 | without a working pending token, or on an account that is disabled or has no second factor, an attempt changes nothing, right code or not |
| `TwoFactor.PendingTokenLasts` | src/modules/auth/services/session/login.rs:67-80 | an accepted password revokes earlier pending tokens, and its own works for exactly five minutes |
| `TwoFactor.ReplaceWorks` | src/modules/auth/repositories/totp_recovery_code.rs:19-61 | a new batch is 8 unused codes with a fresh count, other users keep theirs |
| `TwoFactor.RunKeepsInv` | src/modules/auth/services/totp/verify_login.rs:15-59 | token rows, pending tokens, handlers and unused recovery codes agree in every reachable state |
| `TwoFactor.RunKeepsLogins` | src/modules/auth/services/session/login.rs:67-80 | every pending token belongs to the login that created it |
| `TwoFactor.RunKeepsFactors` | src/modules/auth/services/totp/verify_login.rs:33-45 | a handler past the check and every token it issues hold a factor shown for that pending token; claims are numbered below 8 within each batch, and no number is used twice |
| `TwoFactor.BatchSize` | src/modules/auth/repositories/totp_recovery_code.rs:26-36 | a batch adds one unused code per hash and leaves other users' codes alone |
| `TwoFactor.BatchIsClaimable` | src/modules/auth/repositories/totp_recovery_code.rs:19-53 | exactly the codes of the batch can be claimed, besides those that could be before |
| `TwoFactor.ClaimUsesACode` | src/modules/auth/repositories/totp_recovery_code.rs:42-53 | every successful claim leaves at least one unused code fewer, of that user only |
| `TwoFactor.TotpRecoveryCodeRepository.ReplaceAll` | src/modules/auth/repositories/totp_recovery_code.rs:19-39 | old codes gone, one unused row per new hash, and exactly the new hashes can be claimed |
| `TwoFactor.TotpRecoveryCodeRepository.Claim` | src/modules/auth/repositories/totp_recovery_code.rs:42-53 | succeeds exactly when an unused code matches, which then never matches again |
| `TwoFactor.TotpRecoveryCodeRepository.DeleteAll` | src/modules/auth/repositories/totp_recovery_code.rs:55-61 | that user has no codes, the others keep theirs |
| `ExpirySweep.SweepInvisible` | src/infra/jobs/cleanup.rs:21-46 | for every run, taking all sweeps out leaves every answer of every token, state, grant, challenge and QR operation and every one-hour count unchanged |
| `ExpirySweep.StepSimulates` | src/infra/jobs/cleanup.rs:21-46 | one step keeps the swept database equal to the unswept one minus rows an hour past expiry |
| `ExpirySweep.SameAnswer` | src/modules/auth/repositories/auth_token.rs:60-111 | two databases so related give the same answer to every operation |
| `ExpirySweep.SingleUse` | src/modules/oauth/repositories/grants.rs:33-43 | whatever was claimed or won once, of all seven single-use statements, is never claimed or won again |
| `ExpirySweep.InsertedIsThere` | src/modules/auth/repositories/auth_token.rs:20-42 | a row inserted into any of the five tables answers with its own content exactly until it expires |
| `ExpirySweep.AnswersMean` | src/modules/auth/repositories/auth_token.rs:60-111 | each answer is there exactly while its row can be claimed and is that row's; peeking answers what claiming would |
| `ExpirySweep.SweptSessions` | src/infra/jobs/cleanup.rs:21-46 | after any run the session table is that of the run without sweeps minus the rows that expired before the highest cutoff |
| `ExpirySweep.FindShowsSweepIff` | src/modules/qr_login/services/mod.rs:68-79 | after any run a lookup by id differs from the run without sweeps exactly for sessions that expired before the highest cutoff so far; rows that are left are equal |
| `ExpirySweep.WrongCodeShowsSweepIff` | src/modules/qr_login/repository.rs:102-115 | after any run the answer to a wrong code differs exactly for such a session on its last try |
| `ExpirySweep.LateApprovalSeesSweep` | src/modules/qr_login/services/approve_session.rs:9-31 | a run in which an approval reads a session with two wrong codes in time, a sweep intervenes, and both the lookup and the answer differ |
| `ExpirySweep.Database.SweepExpired` | src/infra/jobs/cleanup.rs:21-46 | from each of the five tables exactly the rows an hour past expiry go, with one cutoff |
| `ExpirySweep.PasskeysRepository.AddChallenge` | src/modules/passkeys/repositories/challenges.rs:10-36 | the new challenge can be answered exactly until it expires and by its user for its kind, and every other one as before |
| `ExpirySweep.PasskeysRepository.TakeChallenge` | src/modules/passkeys/repositories/challenges.rs:40-57 | a challenge is answered once, unexpired, of its kind and for its user |
| `LoginLockout.WrongPasswordsBounded` | src/modules/auth/services/session/login.rs:23-56 | in every run with at most k logins in flight, at most l lost between comparison and write, and no correct password, from a fresh counter: at most max + k - 1 + k * floor(T / lockout) + l passwords are compared within time T |
| `LoginLockout.LimitHoldsIff` | src/modules/auth/services/session/login.rs:23-56 | every run with at most k logins in flight and at most l lost keeps to max + floor(T / lockout) if and only if k is 0, or k is 1 and l is 0 |
| `LoginLockout.CounterCountsFailures` | src/modules/users/repositories/credentials.rs:28-61 | under any interleaving the counter is the number of failures since the last reset and the lock that of the last failure |
| `LoginLockout.RunKeepsBounded` | src/modules/users/repositories/credentials.rs:28-49 | until a failure is a lockout ago, every later one comes from a login that had read the row before it, so k failures on a lockout has passed, although the lock is checked against a row read earlier |
| `LoginLockout.BoundIsAttained` | src/modules/auth/services/session/login.rs:23-56 | for every k from 1 and every l a run compares max + k - 1 + l wrong passwords in no time |
| `LoginLockout.SessionService.Login` | src/modules/auth/services/session/login.rs:18-94 | the password is compared exactly when the account is not locked; which of the five answers is given, each by its own if-and-only-if on the account, so that a right password alone signs in exactly an active account, verified where required, without two-factor authentication; and the counter for each case |
| `LoginLockout.SoloLogin` | src/modules/auth/services/session/login.rs:23-94 | a login that no other one overlaps, run in its separate statements and clock readings, compares, counts and answers as the uninterrupted method does |
| `LoginLockout.EveryAnswerFits` | src/modules/auth/services/session/login.rs:23-94 | in every run each answer fits an account as it really was when read: no password alone signs in an account with two-factor authentication on, disabled, or unverified where that is required |
| `LoginLockout.LockLasts` | src/modules/users/repositories/credentials.rs:28-49 | a failure that reaches the limit locks the account for exactly the lockout, an earlier one leaves the lock as it was |
| `ResetLimit.LinksPerHour` | src/modules/auth/services/password_reset/forgot_password.rs:12-37 | in every run with at most k `forgot` calls of the account in flight, with invitations, redeems, revocations and sweeps interleaved: every hour [a, a + 1h) holds at most k + 2 of its reset links |
| `ResetLimit.ThreePerHourIff` | src/modules/auth/services/password_reset/forgot_password.rs:12-37 | every run keeps to 3 links an hour if and only if at most one call of the account is in flight at a time |
| `ResetLimit.BoundIsAttained` | src/modules/auth/services/password_reset/forgot_password.rs:12-37 | for every k from 1 a run with at most k calls in flight mails k + 2 links in one hour |
| `ResetLimit.RefusedIff` | src/modules/auth/services/password_reset/forgot_password.rs:12-37 | in every run, from the history of inserts: a call goes through if and only if fewer than 3 tokens, invitations included, were inserted for its account in the last hour, whatever other accounts do |
| `ResetLimit.CountIsHistory` | src/modules/auth/repositories/auth_token.rs:97-111 | whatever was swept, revoked or redeemed, the rows counted are exactly the tokens inserted for that account in the last hour |
| `ResetLimit.InviteCounts` | src/modules/auth/services/password_reset/invite_user.rs:15-40 | an invitation counts for the account invited and for no other |
| `ResetLimit.CountSeesRecentLinks` | src/modules/auth/repositories/auth_token.rs:97-111 | if the count is below the limit, the third-last link is at least an hour old, whatever was swept |
| `ResetLimit.RunKeepsCrowd` | src/modules/auth/services/password_reset/forgot_password.rs:12-37 | recent links and calls in flight together never exceed k + 2; a link's row is there or the link is an hour old |
| `ResetLimit.PasswordResetService.Forgot` | src/modules/auth/services/password_reset/forgot_password.rs:12-37 | mails exactly for an active account below the limit, and then the new link is the only working one |
| `RateLimit.EvictionInvisible` | src/common/middleware/rate_limit.rs:43-54 | for every non-decreasing request sequence the evicting limiter decides as one that never evicts |
| `RateLimit.TrackedClientsBounded` | src/common/middleware/rate_limit.rs:16 | after any request the map holds at most 10000 clients, or only clients with a live window |
| `RateLimit.CountWraps` | src/common/middleware/rate_limit.rs:52-53 | the 32-bit count goes from its last value to zero and up by one from every other |
| `RateLimit.AdmissionBound` | src/common/middleware/rate_limit.rs:43-54 | over any interval of length L a client is admitted at most max * (floor(L / window) + 2) times, with fewer than 2^32 hits per window |
| `RateLimit.ModestClientAlwaysAdmitted` | src/common/middleware/rate_limit.rs:43-54 | a client that never exceeds max in any window is never refused, whatever other clients do |
| `RateLimit.RateLimiter.Allow` | src/common/middleware/rate_limit.rs:43-54 | the in-place update with eviction, restart and wrapping count does what the step function says, within the size bound |
| `AdminSearch.SearchIsSubstring` | src/modules/users/repositories/listing.rs:51-66 | LIKE under `%` + escaped text + `%` holds if and only if the text is a substring, for every text |
| `AdminSearch.SearchPatternValid` | src/modules/users/repositories/listing.rs:61-66 | the pattern never ends in a lone escape, so the query is never rejected |
| `AdminSearch.EscapeHead` | src/modules/users/repositories/listing.rs:61-66 | the three staged replaces, backslash first, amount to escaping each character once |
| `AdminSearch.SelectedIsMatching` | src/modules/users/repositories/listing.rs:51-59 | the WHERE clause selects exactly the live users whose email or name contains the text |
| `AdminSearch.ListingUnique` | src/modules/users/repositories/listing.rs:15-48 | with ties broken by id only one order of the result is possible |
| `AdminSearch.ListingOrder` | src/modules/users/repositories/listing.rs:15-48 | what the four orders mean: by creation time or email, ascending or descending, ties by id the same way |
| `AdminSearch.Listing` | src/modules/users/repositories/listing.rs:15-48 | such an ordered result exists for every table and holds each user once |
| `AdminSearch.List` | src/modules/users/repositories/listing.rs:15-48 | the page and total are those of the unique ordered list of users containing the text |
| `AdminSearch.SearchPagesComplete` | src/modules/users/repositories/listing.rs:15-48 | the pages concatenated are exactly that list |
| `AdminSearch.PagesCoverIff` | src/common/dto/pagination.rs:14-28 | n pages show every row once and in order if and only if n * per_page reaches the end |
| `AdminSearch.AllPagesCoverIff` | src/common/dto/pagination.rs:14-28 | all pages from 1 to 2^32 - 1 show everything if and only if the result is not longer than that many pages |
| `AdminSearch.SomeResultIsCutOff` | src/common/dto/pagination.rs:14-28 | for every page size some result is longer |
| `AdminSearch.PagesArePrefix` | src/common/dto/pagination.rs:14-28 | the first n pages are the first n * per_page rows, no gap and no repeat |
| `AdminSearch.NewPagination` | src/common/dto/pagination.rs:14-20 | page 0 or none becomes 1 and any other is kept; no size becomes 20, 0 becomes 1, above 100 becomes 100 and any other is kept |
| `AdminSearch.Pagination.Offset` | src/common/dto/pagination.rs:26-28 | offset and end of the window never overflow 64 bits |
| `Sessions.AcceptedIffReadAfterLastChange` | src/modules/users/services/session_verifier.rs:12-29 | in every interleaving a token is accepted if and only if its account is live and active and the row it was built from was read after the last password change |
| `Sessions.AnswerFromEvents` | src/modules/users/services/session_verifier.rs:12-29 | the answer to every token in every run, from the events alone: accepted if and only if the account is live and active by the last event about it and no later event than the read changed its password; the role is the one the last event about the account gave it, so a demotion shows on the next request |
| `Sessions.SignInGivesToken` | src/modules/auth/services/session/login.rs:81-87 | a sign-in on a live account yields a token with the version read, accepted at once if the account is active |
| `Sessions.ChangeRevokesForGood` | src/modules/users/repositories/credentials.rs:12-23 | once a password change commits, no token issued before is accepted after any continuation |
| `Sessions.RunKeepsInv` | src/modules/auth/services/session/login.rs:81-87 | a version that was read is current exactly when the password has not changed since the read |
| `Sessions.CredentialsRepository.SetPasswordHash` | src/modules/users/repositories/credentials.rs:12-23 | every version accepted before is refused afterwards; other users are unaffected |
| `MailOutbox.NoMailIsLost` | src/modules/mail/service/mod.rs:80-192 | across crashes, restarts and failed writes an inserted mail is pending, accepted by the transport, or dead or pruned over 30 days later because a whole delivery of it gave up |
| `MailOutbox.EveryDeliveryIsBounded` | src/modules/mail/service/mod.rs:158-180 | each delivery that ended in any run sent the stored text at most 3 times, never after a non-retryable error, and gave up on retryable errors only after at least 5 s |
| `MailOutbox.UnfinishedDeliveryIsBounded` | src/modules/mail/service/mod.rs:158-180 | a delivery under way, also one that a crash is about to cut off, has made at most 2 sends, all answered by retryable errors, and is sending the stored text |
| `MailOutbox.AcceptedMailLeaves` | src/modules/mail/service/mod.rs:139-148 | a stored mail that the transport accepts is delivered once and leaves no row |
| `MailOutbox.RefusedMailStays` | src/modules/mail/service/mod.rs:184-192 | a mail refused for good stays as a dead row with its text |
| `MailOutbox.UnstoredMailIsSent` | src/modules/mail/service/mod.rs:139-147 | a mail whose insert failed is sent all the same, without a row |
| `MailOutbox.RetriesAfterDelay` | src/modules/mail/service/mod.rs:167-171 | after a retryable error the same mail is sent again, not before 1 s and then 4 s have passed |
| `MailOutbox.RestartPicksUpAll` | src/modules/mail/service/mod.rs:80-100 | unless its own process crashes, every mail that was waiting at a restart has been through a whole delivery since, or the recovery task still has it in hand |
| `MailOutbox.RunKeepsInv` | src/modules/mail/service/mod.rs:124-192 | every stored mail is accounted for and every task delivers the text of its own row, in every reachable state |
| `MailOutbox.DeliveryBounds` | src/modules/mail/service/mod.rs:158-180 | one to three sends; given up exactly on a permanent error or three retryable ones |
| `MailOutbox.Deliver` | src/modules/mail/service/mod.rs:158-180 | sent if and only if one of the first three answers is an acceptance with only retryable errors before it |
| `MailOutbox.OutboxRepository.Insert` | src/modules/mail/repository.rs:20-35 | the mail is added to those waiting, nothing else changes |
| `MailOutbox.OutboxRepository.Remove` | src/modules/mail/repository.rs:38-44 | that row goes and every other one is as it was |
| `MailOutbox.OutboxRepository.MarkDead` | src/modules/mail/repository.rs:49-56 | that row stops waiting, keeps its text and is prunable exactly after 30 days; a missing row stays missing, other rows as they were |
| `MailOutbox.OutboxRepository.PendingMails` | src/modules/mail/repository.rs:61-76 | every pending, readable row once; unreadable ones skipped |
| `MailOutbox.OutboxRepository.PruneDead` | src/infra/jobs/cleanup.rs:64-70 | exactly rows dead for over 30 days go; nothing waiting is touched |
| `MailOutbox.OutboxRepository.RecoverPending` | src/modules/mail/service/mod.rs:80-100 | run alone: each waiting mail's row is gone if a send got through and dead otherwise, all other rows as they were, nothing left waiting |

## Left out

- HTTP controllers, extractors, middleware stack, CORS, metrics and telemetry: no hard property.
- Argon2, JWT signing, SHA-256, TOTP arithmetic, WebAuthn and breach lookup: foreign libraries, here booleans or equality.
- The OAuth provider's HTTP client and profile parsing: the profile is an arbitrary input, as is its absence.
- Storage, avatars, media, configuration, CLI, seeds, mail templates and audit-log entries: no hard property.
- `safe_redirect_path`, `describe` and `reschedule_after`: single expressions.
- "At least one sign-in method remains" after an unlink: needs a proviso of its own and adds little.
- Liveness of jobs stuck in `running`: the code never reclaims them, so only safety is stated.
- Service handlers of the interleaved protocols are steps of a machine rather than methods, because another request may
  run between any two of their statements. The repositories they call are classes.
- Statements as single steps: `replace_all` and the OAuth account creation commit as one step. The isolation of PostgreSQL
  below that level is not modelled, except in the admin transactions, where lock, count, write and commit are separate,
  and in `ensure_scheduled`, whose test and insert are.
- The role of the actor of an admin request is checked by the route; the model has the rules that nobody deletes, demotes
  or deactivates themselves. In the failing runs every actor is an active admin at the time of the request.
- JobQueue.Event: claims one job at a time; a batch is several claims at one instant, as `ClaimBatch` shows.
- AdminSearch.List: the database's collation is a parameter and assumed to be a total order on text; SQL columns other
  than those searched, sorted or filtered are not modelled.
- ExpirySweep.SweepInvisible: covers lookups of live sessions; the two operations that can notice a sweep are stated
  separately, with the exact condition.
- ResetLimit.LinksPerHour: speaks of links issued by `forgot`; an invitation uses the same purpose and is counted by
  `forgot` but not limited by it. The hour is half-open, as the strict comparison in the count makes it.
- LoginLockout.WrongPasswordsBounded: the counter is unbounded, not a 32-bit integer.
- RateLimit.RateLimiter.TrackedClients: only reads the size that `Allow` bounds.
- MailOutbox.NoMailIsLost: says nothing of a mail whose insert failed; that one is sent without a row, as in the code.
