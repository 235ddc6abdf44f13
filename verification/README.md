# A verified model of eve-online-mcp

This project models the parts of eve-online-mcp whose promises are about whole runs, and proves them in Dafny.
`dafny verify dfyconfig.toml` checks all of it.

Five groups of modules, each following its part of the program:

- **Writes and the mail cap.** `MailProtocol` is the guard's protocol over the database, one statement a step, for any
  number of guards in any number of processes. `MailCapBound` and `MailCapExact` are the rolling hour; `ConfirmOnce` is
  the life of a confirm token. `WriteStore`, `WriteGuard` and `MailSend` are the guard as it is written, with its hold
  object, over a store whose other users may act between any two statements.
- **Sign-in and sessions.** `SessionProtocol` is one database shared by every replica, in READ COMMITTED statements:
  codes parked, exchanged and swept, sessions refreshed, logged out, revoked, expired and purged, and CCP rotating
  refresh tokens. `GrantCustody` and `CustodySteps` are the invariant, `SessionTheorems` what follows from it,
  `SessionRuns` two concrete runs. `SessionStore` and `SessionGrant` are the repositories and the use cases over them.
  `SignInRequests` is what a request may spend around a new sign-in.
- **Rates.** `TokenBucket`, `ErrorBudget` and `RequestLimiter`, over `TimeWindow`.
- **The ESI client.** `ResponseCache` (the recency list), `Revalidation` (conditional requests against an origin that
  changes), `Resending` (which attempts are followed by another), `EsiClient` (what they cost and what a get does with
  them), `PageGather` and `CursorWalk`.
- **Assets.** `RootLocations` and `AssetBuckets`.

`Promises` restates what the program promises in numbers, with the constants written out.

Protocols are state machines, and a theorem about them is a lemma over every finite run. Code that updates an object or a
table is a class or a method with a loop, tied to a function of the old state, and the theorems are about that function.

## What the proofs found

Where a promise does not hold on every run, the code is kept as it is, a run that breaks it is given, and the condition
under which it holds is proved, both ways:

- *Five mails an hour*. Over the rows in the table it holds always. Over the whole history it
  holds exactly when no hold waits more than 90 days less an hour between BEGIN and its count, since `DeleteOld` may
  forget rows that an old hold would have counted (`MailCapExact.HistoryBoundExact`).
- *A confirm token is single use*. For `eve_mail_send` it is, across processes, because the look
  and the delete sit inside the hold. For every other tool two overlapping confirms can both be authorised
  (`ConfirmOnce.OneShotExact`).
- *A refresh token that CCP has rotated out is never presented again.* Exactly the grants whose rotated token was rolled
  back are at risk (`SessionTheorems.RollbackExact`, `NothingStale`, `SessionRuns.PresentedAgain`); custody and the single
  session hold even then.
- *A sign-in voids every pending confirmation*. A request can still spend an earlier session's preview exactly when the
  guard in its process is of an earlier session by now, or a request of an earlier session is between its liveness check
  and the runtime there (`SignInRequests.VoidExact`).
- *A write is sent again only if it never reached EVE.* The code takes every `net.OpError` for that, one of reading the
  answer included, so a write that was carried out can go out again (`Resending.CarriedOutTwice`); it cannot exactly when
  the network's OpErrors, as far as they are admitted, are those of dialling (`Resending.NeverAgainExact`).
- *A cached body is served for at most a day after the origin last vouched for it.* The 304 of a slow request extends
  whatever body the key holds by then, so the bound is a day plus twice the time a request may be open, and no smaller
  multiple will do (`Revalidation.TwiceExact`).
- *60 requests a minute*. The clock is read before the lock is taken; any window is as much
  shorter than a minute as a reading may be late, and a full minute holds exactly when none is late
  (`RequestLimiter.FullMinuteExact`). `Retry-After` cuts off the fraction of a second, so a client that obeys it is
  admitted exactly when there was none (`RequestLimiter.HeaderExact`).
- *`retry_at` of the error budget.* It is the moment the budget opens exactly when the charges that must expire first are
  as old as the oldest; when CCP's remainder has dropped it can be too early (`ErrorBudget.RetryAtExact`).
- *A cursor walk that does not say it was cut brought the whole list.* Exactly when the server's page is no smaller than
  the caller's batch size, and holds two rows if it starts at the cursor itself (`CursorWalk.FaithfulExact`).
- *304 answers are free*. One token comes back; the attempts before the 304 stay paid
  (`EsiClient.Client.CachedGet`).
- The repository's documentation charges every response of 400 and above; the code charges those that carry
  `X-Esi-Error-Limit-Remain`, and so does `EsiClient.Client.NoteErrorHeaders`.
- A database error while a confirm token is read is reported as an unknown token, as in the code
  (`WriteGuard.Guard.CheckConfirm`).

## Model

| member | source | states |
|---|---|---|
| MailCapBound.TableBound | internal/domain/mutation/pgx/repo.go:20-32 | In every reachable state in which every mail row was written inside a hold, any closed hour window holds at most 5 ok sends of a character among the rows in the table, for every interleaving of guards and of `DeleteOld` |
| MailCapBound.CountIs | internal/domain/mutation/pgx/repo.go:20-26 | The count is the size of the set of rows in the table that are ok sends of the character from an hour before `began` on |
| MailCapBound.HistoryBound | internal/domain/mutation/pgx/repo.go:51-68 | The same over all rows ever committed, deleted ones included, when no hold waited more than 90 days less an hour between BEGIN and its count |
| MailCapBound.HourBound | internal/domain/mutation/pgx/repo.go:79-90 | The counting argument: if every row was the fifth or less of the hour before it, no closed hour holds six, whatever the order of timestamps and commits |
| MailCapBound.CapSurvivesDelete | internal/domain/mutation/pgx/repo.go:70-77 | Forgetting rows keeps every bound on those that stay, and every open hold's count an overestimate |
| MailCapBound.AddRowKeeps | internal/domain/mutation/pgx/repo.go:92-146 | A commit of a hold that counted fewer than 5 keeps the cap for all windows, although other characters' holds commit meanwhile |
| MailCapBound.CountKeeps | internal/domain/mutation/pgx/repo.go:92-146 | What a hold counts under the lock bounds what its row will join, until it commits or is abandoned |
| MailCapBound.StepKeepsCap | internal/domain/mutation/pgx/repo.go:92-164 | Every statement of every guard, every sweep and every tick keeps the cap invariant |
| MailCapBound.ReachableCap | internal/domain/mutation/pgx/repo.go:92-164 | The cap invariant holds after every run |
| MailCapExact.HistoryBoundExact | internal/domain/mutation/pgx/repo.go:24-32 | Five an hour over the whole history, for all runs whose holds wait at most `d`, if and only if `d` is at most 90 days less an hour |
| MailCapExact.SixthSend | internal/domain/mutation/pgx/repo.go:70-77 | A run in which a hold that waited longer commits a sixth send into one hour |
| ConfirmOnce.SpendMatchesPreview | internal/domain/write/guard.go:305-338 | Every authorised confirm was preceded by a preview of the same session, tool and argument digest, at most 300 seconds old |
| ConfirmOnce.TokenSpentOnce | internal/domain/write/guard.go:305-338 | No two authorised confirms carry one token, if it is a mail token or its confirms never overlapped |
| ConfirmOnce.OneShotExact | internal/domain/write/guard.go:187-209 | Over all interleavings no token of a tool is spent twice, if and only if the tool is `eve_mail_send` |
| ConfirmOnce.DoubleSpend | internal/domain/write/guard.go:305-338 | For any other tool, a run in which two overlapping confirms spend one token |
| ConfirmOnce.MailLookIsAlone | internal/domain/write/guard.go:273-299 | Under the lock of its character no other guard is looking at a mail token of the same session |
| ConfirmOnce.StepKeepsTokens | internal/domain/write/guard.go:305-338 | Every statement keeps: minted rows are never altered, spends match their previews, mail tokens are spent once |
| ConfirmOnce.ConfirmExact | internal/domain/write/guard.go:305-338 | From any state in which the guard may look, the look and the delete after it spend the token, for this session, tool and digest, if and only if it is pending in this session for this tool and these arguments and at most 300 seconds old; they take out the token and no other, and leave it alone exactly when it is absent, of another session, or in time and of another tool |
| WriteStore.OthersLeave | internal/domain/mutation/pgx/repo.go:92-146 | Whatever the other guards do between two statements leaves a guard's open transaction where it was and the logs only longer |
| WriteStore.OneSpenderEach | internal/domain/write/guard.go:305-338 | In every run there is one spender for each spend |
| WriteStore.Store.CountMailCap | internal/domain/mutation/pgx/repo.go:79-90 | The count inside a hold is that of the ok sends since an hour before the hold began; a count that fails leaves the hold where it was |
| WriteStore.Store.AppendMutation | internal/domain/mutation/pgx/repo.go:51-68 | The row is written into the open hold with the hold's timestamp, or at once with the clock's; a failed insert leaves everything as it was |
| WriteStore.Store.CommitHold | internal/domain/mutation/pgx/repo.go:92-146 | A commit adds exactly the row written into the hold; a failed one adds nothing |
| WriteGuard.MailCapHold.Release | internal/domain/write/persist.go:71-76 | The end function, cleared before use, is never called twice; it commits exactly when the audit row was written |
| WriteGuard.Guard.Authorize | internal/domain/write/guard.go:114-142 | After it a hold is open exactly when it authorised a mail send; an authorised call has spent the token, once; any other answer has spent nothing and leaves nothing open. Unless a statement of its own failed, an entitled call is refused for the cap exactly when the cap query saw five sends or more, is previewed if it names no token, and otherwise is authorised exactly when the token, as it was looked up, was put in this session for this tool and these arguments at most 300 seconds ago; each refusal has its own mismatch |
| WriteGuard.Guard.Record | internal/domain/write/guard.go:144-159 | Afterwards no hold is open; on success the last row is this call's, stamped with the hold's begin if there was one; it fails only for arguments without a digest or a failed statement, and then nothing of it has been committed |
| WriteGuard.Guard.CloseHold | internal/domain/write/guard.go:291-299 | The hold ends, with a commit only if the row was written into it |
| WriteGuard.Guard.GateMailCap | internal/domain/write/guard.go:187-196 | A call is refused for the cap exactly when the ok sends since an hour before are 5 or more, counted inside the hold for a confirm and at once for a preview; a confirm leaves with an open hold or with nothing open; the only other refusal is a failed statement |
| WriteGuard.Guard.HoldMailCap | internal/domain/write/guard.go:273-289 | The hold that is handed out has begun, locked and counted for this very call, whatever the others did in between, and its count is what the cap query found at that event; there is none exactly when a statement failed |
| WriteGuard.Guard.ConfirmWrite | internal/domain/write/guard.go:198-209 | Authorised keeps the hold open for the send; refused gives it back; unless a statement failed, the decision is that of the token as it was looked up |
| WriteGuard.Guard.PreviewWrite | internal/domain/write/guard.go:211-235 | The token that is returned is in the table, bound to this session, tool and digest |
| WriteGuard.Guard.CheckConfirm | internal/domain/write/guard.go:305-330 | Passes if and only if the look did not fail and found the token pending in this session, for this tool and these arguments, at most 300 seconds old; an unknown or outlived token, another tool and other arguments each have their own refusal, in that order; a failed discard is a failure; what is discarded is gone; no branch spends anything |
| WriteGuard.Guard.ConsumeConfirm | internal/domain/write/guard.go:305-338 | The same if and only if for spending the token, unless the delete fails; success has taken the token out of the table and is this guard's one new spend, for this session, tool and digest; any other end adds no spend of this guard |
| MailSend.EveMailSendTool | internal/usecase/eve/writes_mail.go:152-200 | The bracket of the tool leaves no hold open on any path and never writes a mail row outside a hold; a send, accepted or refused by EVE, is on record as such unless a statement failed; nothing goes to EVE but on a token that fits and a count under five, and on these it does go unless the database fails |
| MailSend.StoreWithinCap | internal/domain/mutation/pgx/repo.go:20-32 | Any store whose guards keep to the bracket has at most 5 ok sends of a character in any hour |
| GrantCustody.ParkKeeps | internal/usecase/oauth/callback.go:38-80 | Parking a grant of CCP's gives it a home and changes nobody else's |
| GrantCustody.RevokeKeeps | internal/domain/session/pgx/repo.go:26-49 | Revoking rows nobody has locked moves exactly their grants to the tokens handed back |
| GrantCustody.CreateKeeps | internal/domain/session/pgx/repo.go:92-105 | A session created from a code whose character has no unrevoked one takes over the code's grant, and no two are unrevoked |
| GrantCustody.RedeemKeeps | internal/usecase/session/grant.go:61-94 | The commit of an exchange keeps custody and leaves one unrevoked session: the predecessors it doomed were all there were |
| GrantCustody.RedeemSound | internal/usecase/session/grant.go:61-94 | At the commit the doomed set is still every unrevoked session of the character, the code row is still the one that was read, and nobody else holds its locks |
| GrantCustody.LogoutKeeps | internal/usecase/session/grant.go:96-119 | The commit of a logout keeps the whole invariant |
| CustodySteps.ReadWorks | internal/domain/session/pgx/repo.go:140-169 | A refresh that has its row lock and no answer yet holds the token of that row's grant that works, and no other refresh of the row has an answer |
| CustodySteps.RotatedKeeps | internal/usecase/session/grant.go:146-195 | A rotation by CCP in mid-refresh breaks nobody's custody but suspends its own row's until the commit |
| CustodySteps.CommitRefreshKeeps | internal/domain/session/pgx/repo.go:140-169 | The commit of a refresh puts the working token back into the row |
| CustodySteps.RollbackKeeps | internal/postgres/tx.go:42-62 | A rollback costs at most the one grant whose rotated token goes with it; everything else is as before |
| CustodySteps.SweepKeeps | internal/domain/authcode/pgx/repo.go:24-40 | A sweep moves the grants of the expired codes, and no others, to the tokens handed back |
| CustodySteps.PurgeKeeps | internal/domain/session/pgx/repo.go:81-81 | Purging old revoked rows takes nothing that holds a grant |
| CustodySteps.StepKeeps | internal/domain/session/pgx/repo.go:20-81 | Every statement of every transaction, and every answer of CCP, keeps the whole invariant |
| SessionTheorems.ReachableInv | internal/usecase/session/grant.go:61-195 | The invariant holds after every run, without any assumption on it |
| SessionTheorems.OneSessionPerCharacter | internal/usecase/session/grant.go:61-94 | In every reachable state a character has at most one unrevoked session |
| SessionTheorems.GrantInOnePlace | internal/domain/session/pgx/repo.go:26-81 | Every grant is held in exactly one place: a parked code, an unrevoked session, or the tokens handed back |
| SessionTheorems.RevokedHoldsNothing | internal/domain/session/pgx/repo.go:26-49 | A session row has no token if and only if it is revoked |
| SessionTheorems.HandedBackWorks | internal/domain/session/pgx/repo.go:180-203 | A token handed back is the one that works now, also after a rotation; only of a grant that a rollback cost its token may it be a rotated-out one; the row or code it came from is gone or revoked |
| SessionTheorems.FatesAreFinal | internal/domain/authcode/pgx/repo.go:82-119 | No later step hands back a second token for a row or code, and none parks, redeems or sweeps a finished code again |
| SessionTheorems.PresentsCurrent | internal/usecase/session/grant.go:163-180 | The token a refresh presents is the grant's current one, across replicas; only of a grant that a rollback cost its token may it be a rotated-out one |
| SessionTheorems.NothingStale | internal/adapter/sso/http/client.go:220-240 | In every reachable state, a rotated-out token has been presented only for grants that lost theirs to a rollback |
| SessionTheorems.StalePresented | internal/usecase/session/grant.go:163-180 | From any state in which a live, unlocked row holds a rotated-out token, the next refresh that asks CCP presents it |
| SessionTheorems.RollbackExact | internal/postgres/tx.go:42-62 | After the rollback of an answered refresh the row holds the working token if and only if CCP had not rotated it |
| SessionTheorems.OnlyRollbacksLose | internal/postgres/tx.go:42-62 | No step but the rollback of a rotated refresh loses a grant's token |
| SessionTheorems.OneRefreshPerGrant | internal/domain/session/pgx/repo.go:140-169 | Two refreshes in flight, in any processes, are of different sessions and different grants |
| SessionTheorems.CodeFate | internal/usecase/session/grant.go:61-94 | A code is parked or finished, never both; it is recorded as redeemed into a session if and only if that session was created from it; no two sessions come from one code |
| SessionTheorems.CodeLeaves | internal/domain/authcode/pgx/repo.go:82-119 | A code leaves the table only by a commit that makes the one unrevoked session of its character out of it, with its token, or by a sweep that found it expired and hands its token back |
| SessionTheorems.TakeFinds | internal/domain/authcode/pgx/repo.go:82-95 | A take succeeds exactly when the row is there and not expired, and takes nothing out of the committed table |
| SessionTheorems.FailedTakeLeaves | internal/postgres/tx.go:50-56 | An exchange whose take failed can do nothing but roll back, nobody else can touch the row until then, and the row is there afterwards as it was |
| SessionTheorems.RevokedIsFinal | internal/domain/session/pgx/repo.go:26-81 | A session that is not unrevoked any more never is again, in any continuation |
| SessionRuns.RevokeAfterRotation | internal/domain/session/pgx/repo.go:140-169 | A run in which a revoke must wait for an open refresh and then hands back the rotated token |
| SessionRuns.PresentedAgain | internal/usecase/session/grant.go:163-180 | A run in which a rolled-back refresh makes the next one present a rotated-out token |
| SessionStore.OthersLeave | internal/postgres/tx.go:42-62 | Whatever other transactions do leaves an open one where it was and the unrevoked rows it has locked as they were |
| SessionStore.CommitRedeems | internal/usecase/session/grant.go:61-94 | What an exchange leaves: code redeemed and gone, its session the only unrevoked one and valid for thirty days from BEGIN, all that the predecessors held handed back and nothing else |
| SessionStore.CommitRetires | internal/domain/session/pgx/repo.go:26-49 | The commit of an exchange gives exactly its predecessors' rows the moment of BEGIN as revoked_at and no token, and leaves every other row as it was |
| SessionStore.Collect | internal/domain/session/pgx/repo.go:180-203 | The loop over the returned rows keeps every id, in order, and exactly the tokens there are, in order |
| SessionStore.Store.Take | internal/domain/authcode/pgx/repo.go:82-95 | Found exactly when the row is there and not expired; else the transaction is one that can only fail; the committed row stays either way |
| SessionStore.Store.Revoke | internal/domain/session/pgx/repo.go:107-117 | The answer names every doomed row once, and beside it the token it holds; the rows stay as they are until the commit |
| SessionStore.Store.LockForRefresh | internal/domain/session/pgx/repo.go:140-153 | What is read under the lock is the row's token, of a row unrevoked by then and valid at the begin of the transaction; without one, there is no such row |
| SessionStore.Store.CommitTx | internal/postgres/tx.go:42-62 | A commit is the protocol's commit of this transaction, a failed one its rollback; a refresh then has its answer in the row |
| SessionGrant.ExchangeCode | internal/usecase/oauth/exchange.go:11-58 | Unless a statement fails, invalid_grant is answered if and only if the code is not parked and in date, the client names another redirect address, or the verifier does not hash to the challenge; not found, only if the code had gone or run out when it was to be taken; else one commit redeems the code into a session that is the only unrevoked one of its character, for thirty days. Answered with it are exactly the sessions that were unrevoked when the commit came, each once and each with the token it held; these are revoked, have handed back those tokens and nothing more has been, and each token is sent to CCP for revocation, in that order. A failure has committed nothing and sent nothing |
| SessionGrant.LockAndTake | internal/usecase/session/grant.go:61-69 | After it the exchange holds the character and the code, found exactly when it was there and in date at the take, or is over with nothing committed |
| SessionGrant.Logout | internal/usecase/session/grant.go:96-129 | Fails only if a statement does, with nothing committed and nothing sent. Success leaves the session revoked, whoever revoked it, and every other as it was; if this call revoked it, the one token it held is answered, handed back and sent to CCP for revocation, and otherwise none is |
| SessionGrant.EveAccess | internal/usecase/session/grant.go:146-195 | An access token with sixty seconds to go costs no statement; otherwise success is a commit after which the process remembers exactly the token in the row of an unrevoked session that had not run out; not found, only if there is no such session; unavailable, only after a failure of the database or of CCP; and the session is revoked by this call if and only if CCP said invalid_grant |
| SessionGrant.AnswersHandedOver | internal/domain/session/pgx/repo.go:180-203 | An answer read under the row locks is what the commit hands back, row by row, and nothing else is handed back |
| SessionGrant.UnderLock | internal/usecase/session/grant.go:163-180 | The callback remembers the token that will be written; with a token rotated by another replica and an access token with sixty seconds to go it asks nobody; otherwise it tells invalid_grant from a failure |
| SignInRequests.BeginsUnderNewest | internal/usecase/oauth/protect.go:100-113 | A request can begin only under the newest session |
| SignInRequests.NoEarlierPreview | internal/usecase/oauth/protect.go:27-43 | A request that reached the runtime with no laggard on its way never spends a preview of an earlier session, whatever comes later |
| SignInRequests.LaggardSpends | internal/usecase/session/grant.go:131-144 | From any state with a laggard on its way and a preview of its session, two steps let the later request spend that preview |
| SignInRequests.VoidExact | internal/usecase/oauth/protect.go:27-75 | In any reachable state, some continuation lets an open request that has reached its runtime spend a preview of an earlier session, if and only if the guard there is of an earlier session by now, or a request of an earlier session has passed its check in that process and not reached the runtime |
| SignInRequests.QuietExact | internal/usecase/oauth/protect.go:27-43 | Of a request just arrived at the runtime: it may come to spend an earlier preview if and only if a laggard was on its way |
| SignInRequests.SafeForEver | internal/usecase/oauth/protect.go:27-75 | Once the guard is of the request's session or a later one and no laggard is left, that stays so in every continuation |
| SignInRequests.LiveSpends | internal/usecase/oauth/protect.go:27-75 | A request of the live session, undisturbed, passes its check, finds a guard of its own session and can spend what it previews |
| TokenBucket.IntervalBound | internal/adapter/esi/http/bucket.go:31-90 | From any sound bucket, over any operations at times within an interval, in any order, successful takes are at most 400, plus 2 a second of its length, plus the refunds |
| TokenBucket.StaysSound | internal/adapter/esi/http/bucket.go:31-90 | Tokens stay between 0 and 400 over every run |
| TokenBucket.RefundGivesBack | internal/adapter/esi/http/bucket.go:60-67 | A refund leaves one token more, up to 400, and the time of the last refill |
| TokenBucket.RefundUndoesTake | internal/adapter/esi/http/bucket.go:31-67 | A successful take followed by a refund leaves what the refill had left |
| TokenBucket.TakeCostsOne | internal/adapter/esi/http/bucket.go:31-56 | A take succeeds exactly when a whole token is there after the refill, and then takes out one; otherwise nothing |
| TokenBucket.RefillRate | internal/adapter/esi/http/bucket.go:75-90 | Two tokens a second since the last refill, up to 400; a clock gone back changes nothing |
| TokenBucket.FullAllowance | internal/adapter/esi/http/bucket.go:31-56 | Out of a full bucket 400 takes succeed, at any times |
| TokenBucket.RefillTwice | internal/adapter/esi/http/bucket.go:75-90 | Looking on the way does not change what is there later |
| TokenBucket.RetryAtExact | internal/adapter/esi/http/bucket.go:36-52 | After a refusal and with no refund, every take before RetryAt fails, however many there are, and a take succeeds if and only if it is not before RetryAt |
| TokenBucket.RetrySecEnough | internal/adapter/esi/http/bucket.go:39-40 | The rounded seconds, at least one, reach RetryAt, and one less would not |
| TokenBucket.UserBucket.Take | internal/adapter/esi/http/bucket.go:31-56 | Refuses exactly when less than one token is there after the refill, with that RetryAt and those seconds |
| ErrorBudget.RetryAtExact | internal/adapter/esi/http/budget.go:39-65 | Refused until RetryAt with nothing charged; open at RetryAt if and only if the charges that must expire are no younger than the oldest, which holds when the count equals the limit |
| ErrorBudget.OpenExact | internal/adapter/esi/http/budget.go:39-65 | With nothing charged, refused at a later time if and only if that is before the expiry of the charge that brings the count under the limit |
| ErrorBudget.OpenStays | internal/adapter/esi/http/budget.go:39-65 | A budget that is open stays open until something is charged |
| ErrorBudget.NothingLeft | internal/adapter/esi/http/budget.go:31-37 | Refused at all times if and only if CCP's remainder is under 5 |
| ErrorBudget.LimitIs | internal/adapter/esi/http/budget.go:31-37 | The limit is the greatest number that is at most 20 and at most a fifth of what remains |
| ErrorBudget.PruneTwice | internal/adapter/esi/http/budget.go:83-92 | Forgetting the old at one moment loses nothing at a later one |
| ErrorBudget.Budget.PruneLocked | internal/adapter/esi/http/budget.go:83-92 | Cutting the old prefix off the kept stamps equals filtering the whole history of charges |
| ErrorBudget.Budget.Check | internal/adapter/esi/http/budget.go:39-65 | Refuses exactly when the charges of the last minute in the whole history reach the limit |
| ErrorBudget.Budget.Charge | internal/adapter/esi/http/budget.go:67-73 | Adds one charge to the history and keeps the stamps its last minute |
| RequestLimiter.WindowBound | internal/service/http/limit.go:44-64 | Over the whole history of an address, any window of a minute less the lateness of the clock readings has at most 60 admitted requests |
| RequestLimiter.FullMinuteExact | internal/service/http/limit.go:44-48 | 60 in any full minute over all histories whose readings are at most `d` late, if and only if `d` is 0 |
| RequestLimiter.LateRequest | internal/service/http/limit.go:44-48 | A history with a reading one nanosecond late and 61 requests admitted in a minute |
| RequestLimiter.HitsAreRecent | internal/service/http/limit.go:49-63 | The filtered slice is exactly the admitted requests of the minute before the newest reading |
| RequestLimiter.RetryAdmits | internal/service/http/limit.go:55-60 | A request made `retry` after a refusal is admitted if nothing was admitted in between, however many were refused |
| RequestLimiter.RetryLeast | internal/service/http/limit.go:55-60 | With readings in order and a wait of more than its least second, all requests made before `retry` has passed are refused, in any number, and one made then is admitted |
| RequestLimiter.HeaderExact | internal/service/http/limit.go:29-42 | With readings in order, a client that waits what Retry-After says is admitted if and only if the wait was a whole number of seconds |
| RequestLimiter.Compact | internal/service/http/limit.go:49-54 | Filtering the slice into its own backing array equals filtering the sequence it held |
| RequestLimiter.Limiter.Allow | internal/service/http/limit.go:44-64 | The new slice of the address, admission and wait as specified; every other address's slice is untouched |
| TimeWindow.RecentTwice | internal/service/http/limit.go:49-54 | Forgetting at two moments is forgetting at the later one |
| TimeWindow.RecentIs | internal/service/http/limit.go:49-54 | What is kept is exactly the times less than a minute old, each as often as it was |
| ResponseCache.TrimIsLongest | internal/adapter/esi/http/cache.go:127-140 | Eviction leaves the longest prefix of the recency order within 2000 entries and 256 MiB |
| ResponseCache.PutIsFirst | internal/adapter/esi/http/cache.go:86-109 | A body within 8 MiB is in front after its put, before the rest in its old order as far as it fits; a larger one changes nothing |
| ResponseCache.FrontIs | internal/adapter/esi/http/cache.go:69-84 | Moving an element to the front takes its key out of its place, and changes neither bytes nor what the keys hold |
| ResponseCache.GotIsRecent | internal/adapter/esi/http/cache.go:69-84 | A get puts the key it found in front, keeps the order of the rest and what every key holds; a miss changes nothing |
| ResponseCache.TouchedIs | internal/adapter/esi/http/cache.go:111-125 | A touch gives the key's entry exactly the expiry and time it was told and the front place, and leaves its body, ETag and pages, and what every other key holds |
| ResponseCache.StoredIs | internal/adapter/esi/http/cache.go:86-109 | After a put of a body within 8 MiB the key holds it, and every other key holds what it held or has been evicted |
| ResponseCache.Cache.Get | internal/adapter/esi/http/cache.go:69-84 | Answers what the recency sequence holds under the key and moves it to the front; map, list and byte count stay consistent |
| ResponseCache.Cache.Put | internal/adapter/esi/http/cache.go:86-109 | The contents become the trimmed sequence with the key in front, for a new key and for one overwritten in place |
| ResponseCache.Cache.Touch | internal/adapter/esi/http/cache.go:111-125 | Changes the two times of the key's entry and its place, and nothing else; an absent key changes nothing |
| ResponseCache.Cache.EvictLocked | internal/adapter/esi/http/cache.go:127-140 | The loop from the back equals the trimmed sequence |
| Revalidation.OriginResult | internal/adapter/esi/http/request.go:59-128 | Under every interleaving, with evictions and changes at any time, a get that reached the origin and met no server error returns the body the origin had when it replied |
| Revalidation.AnswersAreTrue | internal/adapter/esi/http/request.go:59-128 | An answer is put on record only as the origin's body of that moment |
| Revalidation.FreshIsRecent | internal/adapter/esi/http/request.go:59-72 | A body served without asking was the origin's within the last day and twice the longest time a request was open |
| Revalidation.TwiceExact | internal/adapter/esi/http/request.go:91-98 | A day and `k` times that time, over all runs, if and only if `k` is at least 2 |
| Revalidation.TouchOfAnother | internal/adapter/esi/http/cache.go:111-125 | A run in which the 304 for one body extends another, older one |
| Revalidation.ExpiresWithinADay | internal/adapter/esi/http/httputil.go:154-179 | A reply is stored until at most a day after now and at least the current second, and not at all in the future when Expires is past |
| Revalidation.FirstDecides | internal/adapter/esi/http/httputil.go:154-179 | Expires decides alone; without it max-age, whatever the fallback; without both the fallback; without any, a minute |
| Revalidation.LastsFor | internal/adapter/esi/http/httputil.go:166-179 | The expiry is so many whole seconds after the current one, none for a negative number and a day's for a larger one |
| EsiClient.Client.Request | internal/adapter/esi/http/request.go:179-228 | For every sequence of network outcomes: exactly the attempts it allows and the answer to the last, or fewer when the client itself refused the next, which it does only for a remainder under 15 before the reset, less than one token, or a request that cannot be made; one token for each attempt, none given back |
| EsiClient.AtMostThree | internal/adapter/esi/http/request.go:179-228 | Three attempts at the most; every one but the last could be resent, the last could not, or could and was refused |
| Resending.WriteSentAgain | internal/adapter/esi/http/request.go:230-276 | Over whatever the network comes up with, a write's attempt is followed by another if and only if it was a 429 to the first, or an error with an OpError anywhere in its chain or with one of the two messages to the first or second |
| Resending.ReadSentAgain | internal/adapter/esi/http/request.go:230-276 | A read's attempt is followed by another if and only if it was a 429 to the first, or a network error or a 500, 502, 503 or 504 to the first or second; a response must be read to its end first |
| Resending.NeverAgainExact | internal/adapter/esi/http/httputil.go:253-289 | No write that was carried out is sent again, over all that a network with certain OpErrors can come up with, if and only if the OpErrors admitted as unsent are among those of dialling; the code admits all |
| Resending.CarriedOutTwice | internal/adapter/esi/http/httputil.go:267-289 | A write whose answer is lost to a connection reset while reading is sent again and carried out twice |
| Resending.SentIs | internal/adapter/esi/http/request.go:179-228 | At most three attempts, and each is followed by another exactly when its outcome may be |
| Resending.SafeToRetry | internal/adapter/esi/http/httputil.go:253-265 | The branches and the search through the error's chain come to: a GET, an OpError of any kind, or a message that says so |
| Resending.ErrorAsNet | internal/adapter/esi/http/httputil.go:267-289 | The loop over the chain, searching it anew at each link, finds an OpError exactly when there is one |
| Resending.FirstOpIs | internal/adapter/esi/http/httputil.go:267-289 | There is a first OpError exactly when one stands anywhere in the chain, and it is the outermost |
| EsiClient.Client.AfterAttempt | internal/adapter/esi/http/request.go:230-276 | The branches after a response or an error resend exactly when `Resending` says so, and else answer with this outcome |
| EsiClient.OneMoreAttempt | internal/adapter/esi/http/request.go:179-228 | The recursion: a resendable outcome before the attempts of the next call makes the attempts of this one |
| EsiClient.Client.CachedGet | internal/adapter/esi/http/request.go:59-89 | A copy is served without asking exactly when it has not expired, and costs nothing; otherwise a token for each attempt, and after a 304 the bucket holds one more, up to 400, than the same operations had left; each failure has its own cause; the answer and the cache afterwards are those that the last response, the copy looked up and the caller's fallback make |
| EsiClient.Client.FinishGet | internal/adapter/esi/http/request.go:91-128 | 304 with a copy answers that copy's body, puts one token back into the bucket, up to 400, and moves its expiry to what the reply says; a 5xx with a copy answers the copy; other errors change nothing; a success answers the reply's body and keeps it with the reply's ETag and expiry |
| EsiClient.WhatIsKept | internal/adapter/esi/http/request.go:91-128 | What the key holds after each kind of answer and what the caller gets: the old copy with a new expiry and time after a 304, the reply's own body with its ETag and pages after a success of at most 8 MiB, what it held before after an error; no other key comes to hold anything new |
| EsiClient.Client.NoteErrorHeaders | internal/adapter/esi/http/httputil.go:29-49 | A response with the header sets the shared remainder and the reset, at once if it names none, and charges this user exactly when it is an error; one without changes nothing |
| EsiClient.Client.AwaitErrorBudget | internal/adapter/esi/http/httputil.go:62-89 | Refuses exactly when the remainder is under the floor and the reset is still to come; after the reset the full budget is assumed |
| EsiClient.Client.Prepare | internal/adapter/esi/http/request.go:179-199 | An attempt is declined for the shared limit exactly when the remainder is under 15 and the reset is to come, and else for less than one token, or for a request that cannot be made |
| PageGather.GetAllPages | internal/adapter/esi/http/pages.go:10-62 | For every order of arrival: the first page in front, every row of every page once, the greatest age, cached only if all were, cut exactly when the cap is below the total; one failed page fails all |
| PageGather.AnyOrder | internal/adapter/esi/http/pages.go:38-53 | The rows gathered are the same multiset for every order of arrival |
| PageGather.RowsConcat | internal/adapter/esi/http/pages.go:38-53 | The rows of two batches of answers are those of the first and then those of the second |
| PageGather.OneBox | internal/adapter/esi/http/pages.go:44-47 | The rows of one answer are its data, and none when that is not a list |
| PageGather.Gather | internal/adapter/esi/http/pages.go:38-53 | The loop over the channel fails exactly when an arrival failed, and else appends rows in the order of arrival |
| CursorWalk.WalkedIsFaithful | internal/adapter/esi/http/pages.go:79-149 | Rows are a prefix of the list in its order, the whole list unless the walk says it was cut, and as many of them as the pages asked for hold |
| CursorWalk.FaithfulExact | internal/adapter/esi/http/pages.go:110-149 | That, for all lists, cursors and page limits, if and only if the batch size is at most the server's page, and pages hold two rows when they start at the cursor |
| CursorWalk.CutExact | internal/adapter/esi/http/pages.go:131-140 | When the batch size is the server's page, the walk says that it was cut if and only if the list goes at least as far as the pages asked for |
| CursorWalk.ShortPages | internal/adapter/esi/http/pages.go:131-136 | A server whose page is smaller than the batch size: the first page is taken for the last, unmarked |
| CursorWalk.OneRowPages | internal/adapter/esi/http/pages.go:142-146 | Pages of one row, at the cursor and below: the walk stops after the first, unmarked |
| CursorWalk.StepIs | internal/adapter/esi/http/pages.go:110-149 | One page brings exactly the next rows of the list that it holds, or ends the walk with all of them or marked |
| CursorWalk.MergeSlice | internal/adapter/esi/http/pages.go:151-168 | Merging a page that overlaps what is known adds exactly the new rows, and finds the smallest new marker |
| CursorWalk.Walker.MergeCursorRows | internal/adapter/esi/http/pages.go:151-168 | The loop equals the fold over the rows |
| CursorWalk.Walker.StepCursor | internal/adapter/esi/http/pages.go:110-149 | Equals the step on values, and the cursor strictly decreases whenever the walk goes on |
| CursorWalk.GetCursorPages | internal/adapter/esi/http/pages.go:79-108 | The loop equals the walk on values, for every server; it is marked as cut only after all the pages asked for; from a server with pages as long as the caller says the rows are the list as far as those pages hold it; a failed page fails it |
| RootLocations.RootsOf | internal/usecase/eve/common.go:364-404 | Terminates on every containment graph; the result is the fixpoint: a place that is not an item, or the root of the container; and every root lies on the item's own way up |
| RootLocations.RootIsItemExact | internal/usecase/eve/common.go:385-395 | The root is an item if and only if the plain walk goes round for ever; otherwise it is where that walk ends |
| RootLocations.RootIsEnd | internal/usecase/eve/common.go:374-396 | On the fixpoint the memory changes nothing: a walk that leaves the items ends at the root |
| RootLocations.RootsAgree | internal/usecase/eve/common.go:364-404 | Two fixpoints over the same places agree wherever the walk leaves the items |
| RootLocations.OrderDoesNotMatter | internal/usecase/eve/common.go:364-404 | The results for two orders of the same items agree wherever the walk leaves the items, and altogether when no item contains itself at any depth |
| RootLocations.SameItemsSamePlaces | internal/usecase/eve/common.go:365-368 | The same items in another order give the same places |
| RootLocations.WalkEnds | internal/usecase/eve/common.go:374-396 | When no item contains itself at any depth, every walk leaves the items |
| RootLocations.InTwoOrders | internal/usecase/eve/common.go:364-404 | Two calls on two orders of the same items return the same, in that sense |
| RootLocations.ResolveSound | internal/usecase/eve/common.go:397-400 | Giving the chain its root keeps what the memory says true, whichever way the climb stopped |
| RootLocations.Climb | internal/usecase/eve/common.go:374-396 | The inner loop ends, at a known item, at a place that is not an item, or at an item met before, with the chain it climbed |
| AssetBuckets.Buckets | internal/usecase/eve/assets.go:116-139 | One bucket for each root that occurs, each of its own; its units, its value and its count for every type are those of the items there, each counted by its quantity or as one if it has none |
| AssetBuckets.Conservation | internal/usecase/eve/assets.go:116-139 | Over the roots, however listed, the buckets' units and values come to those of all items that have a root |
| AssetBuckets.TypesAddUp | internal/usecase/eve/assets.go:131-135 | A bucket's units are the sum over its types |
| AssetBuckets.AllAssets | internal/usecase/eve/assets.go:58-75 | With the roots of `RootLocations` nothing is dropped: units by root come to the sum of the quantities and one for each item without |
| AssetBuckets.ByRoot | internal/usecase/eve/assets.go:58-75 | The buckets made over the resolved roots, each once in any order, hold as many units as the quantities and the items without one come to, and are worth what the items are at their prices |
| Promises.FiveMailsAnHour | internal/domain/write/policy.go:9-10 | Of the rows in the table, at most 5 are ok sends of a character stamped within any 3600 seconds |
| Promises.FiveMailsEverExact | internal/domain/mutation/pgx/repo.go:24-32 | Over all rows, exactly for waits of at most 90 days less an hour |
| Promises.FiveMinutesToConfirm | internal/domain/write/policy.go:11-11 | An authorised call matches its preview and comes at most 300 seconds after it |
| Promises.SweepSparesFresh | internal/domain/confirm/pgx/repo.go:34-34 | A sweep leaves every token of at most 300 seconds as it is |
| Promises.TwoMinutesToExchange | internal/usecase/oauth/callback.go:57-66 | A parked code expires 120 seconds later, and keeps the character and token it was parked with |
| Promises.NinetyDaysKept | internal/domain/session/pgx/repo.go:81-81 | A purge forgets exactly the sessions revoked more than 90 days ago |
| Promises.FourHundredAndTwoASecond | internal/adapter/esi/http/bucket.go:16-19 | The allowance in numbers: 400 and 2 a second |
| Promises.SixtyAMinute | internal/service/http/limit.go:14-17 | 60 in any 60 seconds less the lateness of the readings |
| Promises.SixtyAdmitted | internal/service/http/limit.go:14-17 | Sixty requests at once are admitted |
| Promises.CacheBounds | internal/adapter/esi/http/cache.go:10-14 | At most 2000 responses and 256 MiB, and as many as fit |
| Promises.EightMebibytes | internal/adapter/esi/http/cache.go:86-109 | A body is stored exactly when it has at most 8 MiB |
| Promises.FreshForADay | internal/adapter/esi/http/httputil.go:166-179 | No expiry is more than a day ahead |
| Promises.TwoMessages | internal/adapter/esi/http/httputil.go:253-265 | An error says that it was not sent exactly when one of the two messages stands somewhere in its text |

## Left out

- Every tool body but `eve_mail_send`'s bracket, and the JSON shaping of results: thin over the client.
- HTTP handlers, pages, metrics, configuration, OpenAPI code.
- JWT, HMAC, SHA-256 (a function parameter in `SessionGrant.ExchangeCode`), base64 padding, random ids: a new confirm
  token, code, grant or rotated refresh token is one never seen before.
- PostgreSQL beyond the statements used: row locks, transaction-scoped advisory locks, visibility at commit. A statement
  that would wait does not happen until it can; one that gives up fails.
- One clock: the database's `now()` and the processes' clocks are the same reading.
- `created_at` of a mail row is the hold's transaction begin; a value later than that within the hold would only help.
- Crashes between the post to ESI and the commit of the audit row: a send whose row is lost is not in the history.
- A database connection that dies under an open hold. Its advisory lock is then free, while the guard's delete of the
  token and the send go on on other connections; in `MailProtocol` a hold ends only by the guard's own commit or rollback.
- Overlapping calls on one Guard, and a guard replaced between `Authorize` and `Record` of one call. `SignInRequests` has
  the replacement, without holds.
- A grant that never reaches `auth_codes` (missing scopes, a failed insert). Of the revocations sent to CCP only the
  asking is modelled, whose outcome the code ignores. `SessionProtocol` has no error answer of CCP that rotates.
- Why a statement fails. The stores count failed statements for each guard and each transaction (`FaultsOf`), and "only if
  a statement fails" speaks of that count; a lock that is given up is one of them.
- Parking a code, sweeping codes, expiry, purge and the revoke on an owner change are steps of `SessionProtocol` that may
  come at any time, and have no method of their own in `SessionStore`. Its `RevokeNow` is any statement that revokes
  unlocked, unrevoked rows, so it covers expiry, the owner change and `invalid_grant` alike.
- `SessionFor` and the runtime it rebuilds are steps of `SignInRequests`, not a class: what is missing is a rebuild that
  overlaps another one.
- `accessCache` in the SSO client: whether an access token is still cached is an arbitrary choice in
  `SessionGrant.AccessToken`, and so is when the access token that CCP answers runs out. The client's own lock per refresh token is not part of this model; that no two refreshes of
  one token are in flight rests on the row lock alone.
- The characters row that a logout deletes, client names, scopes and IP of a session.
- `nameCache`: the same list, map and eviction as `ResponseCache` with the count alone; it would add the same proof again.
- Floating point: token grains, times and prices are exact here. NaN or infinite `max-age` values.
- `EsiClient.Client.Request`: sleeping, backoff jitter and the concurrency semaphore have no state here.
- `EsiClient.Client.CachedGet`: the access token it sends, and a get that ends because there is none. It is sequential on
  one client; interleavings are `Revalidation`'s, where the list order and the byte bound are an arbitrary eviction.
- `CursorWalk.GetCursorPages`: ages, expiry and the cached flag of the pages; rows without a marker are merged as the code
  does, but no server in the theorems sends them.
- `PageGather.GetAllPages`: a `maxPages` under 1, with which the code panics.
- `RootLocations.RootsOf`: item ids are distinct, as ESI's are.
- Calendar and unread-only mail cursors, offset paging, scope lists, name resolution.
