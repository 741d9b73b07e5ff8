# Verification models of the StudioDesk monorepo

Dafny models of the parts of the repository where state, concurrency or arithmetic carry the
risk, with proofs of what those parts promise. `dafny verify dfyconfig.toml` checks everything.

Each module follows one component. Operations that change state are classes whose methods are
proved equal to (or fully described by) a specification on values; the theorems are lemmas about
the specification, most of them over every run and every interleaving.

| module | component |
|---|---|
| `Rls` | tenant contexts, per-operation transactions and atomic helpers, on a database with the row policy |
| `SoftDelete` | the soft-delete extension, against a table that really deletes |
| `Sessions` | login sessions and refresh tokens on the server |
| `RefreshProtocol` | single-flight refresh in the browser and the server's three statements, interleaved |
| `Lockout` | the sliding window of failed logins |
| `NoteSpese` | expense notes: state machine, conditional updates, attachment gates |
| `Codes`, `Numbering` | zero-padded codes; the counter protocol of mandates and communications |
| `Preventivi` | quote totals and their rounding; totals stored under whole-list replacement |
| `Rbac` | role catalogue, seed, tenant bootstrap, drift gate and its remedy |
| `Circolari` | circulars: lifecycle, portal visibility, read report |
| `Calendar` | month strings, the month filter and the calendar grid, on ECMA-262 dates |
| `Prelude` | `Option` and `Result` |

## Findings

Where a property does not hold of the code as it is, the model keeps the code and the exact
condition is proved.

- Single-flight keeps refreshes from looking like theft only when nothing overlaps a refresh the wrong
  way. With one tab, an event leaves the theft branch out of reach exactly when it is none of these:
  the end of a session (a logout, a revocation) while its token is on its way to the server's check;
  a refresh begun with the token of a session that has ended, by a late 401 between the halves of a
  logout or after a revocation; a page load while the stored token is in a refresh under way, or taken
  (`SafeIffNothingBreaksIn`). Each of them occurs (`EachHarmOccurs`). Without them the branch is
  unreachable exactly with at most one tab (`NeverTakenForTheftIffOneTab`); a logout during which no
  refresh is out is none of them (`LogoutIsCalm`).
- The lockout bound is `threshold + limit - 1`, where `limit` is how many logins of one identifier
  may be at work at once, from the check to the reset or the setting of the lock key, and it is
  reached (`BoundIsReached`); only one at a time is it the threshold.
- `update`, `remove` and the attachments of an expense note write without repeating their check.
  Whatever overlaps, a sent note loses a gate exactly when one of three writes lands: a sending after
  the content changed, an edit after the sending, the removal after it of an attachment that was
  needed (`StepBreaksGateIff`, `GatesHoldThroughoutIff`). Serialised requests of each author never
  write one of them (`SerialisedNeverBreaks`).
- An approved note changes exactly when a late edit, remove, upload or detach lands on it
  (`ApprovedUntouchedIff`), and a late remove does delete one (`LateRemoveDeletesApproved`).
- Circulars likewise (`KeptThroughoutIff`): the time of a confirmation moves exactly when a
  confirmation is written that another request has made since the check; a circular goes back or
  changes after publication exactly when an edit, a deletion or a move is written to one that has left
  the state it was checked in, so a late publication brings an archived circular back
  (`LatePublishRevives`) and a late edit rewrites a published one; a reader drops out of the report
  exactly when a late write leaves the reader out, or is by somebody already left out.
- An intercepted `delete` never marks a row under the row policy, in any context, because it runs on
  the captured client without settings (`InterceptedDeleteNeverLands`); the comment in
  packages/db/src/soft-delete.ts:142-144 says that it stays correct in system contexts.
- `delete` of a row already in the trash succeeds and stamps it again, where a real delete finds
  nothing; `StepSimulates` says exactly when an answer can tell (for aggregates and groupings, when
  it cannot). A `deletedAt` key whose value is
  `undefined` counts as explicit, so such a read is not filtered.
- The remedy of the drift gate reads the database's templates, not the code's: it adds to C3 exactly
  when a leftover that C1-bis only reports is missing from some role (`RemedyAndC3`).
- After a mandate is deleted its quote stays converted, so no other mandate of it can be made until
  somebody sets it back to accepted (`DeletedMandateFreesItsQuote`); the comment in
  apps/accountant-api/src/mandati/mandati.service.ts:160-161 says that it can.
- `shiftMese` gives a month string back exactly for years 1000 to 9999 (`ShiftStaysMese`), and the
  step of the calendar grid over a year's end fails only at the years -1 and 99, where `Date.UTC`
  changes century (`OffsetsFollowOverYears`).

## Model

| member | source | states |
|---|---|---|
| `Rls.NonInterference` | packages/db/src/rls.ts:88-90 | any program in a tenant's context leaves every other tenant's rows alone, and its status, history and own rows are those of the run on its own rows only |
| `Rls.Indistinguishable` | packages/db/src/rls.ts:318-379 | databases that agree on a tenant's rows cannot be told apart from inside its context |
| `Rls.ExecConfined` | packages/db/src/rls.ts:318-379 | the induction over programs: nested contexts, loops, handlers and atomic blocks keep the full run and the restricted run in step |
| `Rls.StatementConfined` | packages/db/prisma/migrations/20260609195025_add_preventivi/migration.sql:79-83 | under a tenant's settings one statement answers, and changes that tenant's rows, as if no others existed; inserts are checked too |
| `Rls.RunsInItsContext` | packages/db/src/rls.ts:323-376 | every statement of a disciplined program runs in a transaction with the settings of the innermost context; transactions never nest and are all closed |
| `Rls.FailsFast` | packages/db/src/rls.ts:340-344 | an operation outside any context is refused before a transaction is opened |
| `Rls.AllOrNothing` | packages/db/src/rls.ts:177-230 | an atomic block that throws, or in which a statement was refused and the refusal survived, leaves the database as it was |
| `Rls.BlockCommitsIff` | packages/db/src/rls.ts:177-230 | an atomic block ends in COMMIT, with all its body wrote, exactly when it completes and no statement was refused on the way; otherwise in ROLLBACK with nothing of it; what was answered stays known |
| `Rls.CreatedInABlockStays` | packages/db/src/rls.ts:213-230 | a row created in a block that does nothing else is in the database afterwards |
| `Rls.BlockCreatesAll` | packages/db/src/rls.ts:177-230 | so are all the rows of a block that creates as many as the answers so far tell it to |
| `Rls.OperationMeans` | packages/db/src/rls.ts:323-376 | one operation reads and changes exactly the rows its context reaches, is refused rather than write one it would not, and what it wrote stays: BEGIN, statement, COMMIT on the base client |
| `Rls.ContextHoldsForItsCall` | packages/db/src/rls.ts:88-90 | the innermost context holds for the length of the call, and no longer |
| `Rls.FoundOrCreated` | packages/db/src/rls.ts:318-379 | find-or-create in a tenant's context creates exactly when the tenant has no such row, whatever others have |
| `Rls.RefusalUndoesItsTransaction` | packages/db/src/rls.ts:323-376 | a caught refusal undoes its own operation only, outside a block; inside one nothing after it runs and nothing is kept |
| `Rls.BadTenantIsRefused` | packages/db/src/rls.ts:213-230 | a tenant id that is not a UUID reaches no connection, in a block or an operation |
| `Rls.ReentryReachesNothing` | packages/db/src/rls.ts:323-339 | the base client inside a block is passed through to a connection without settings, where it reads and writes no row |
| `Rls.InterceptedDeleteNeverLands` | packages/db/src/soft-delete.ts:132-158 | an intercepted delete changes no row in any context, and the single-row form always throws |
| `Rls.Engine.Run` | packages/db/src/rls.ts:316-379 | the engine with its frames and connection settings computes the specification, and pops every frame it pushed |
| `Rls.Engine.RunBlock` | packages/db/src/rls.ts:177-230 | one transaction around the body of an atomic helper: committed when all went well, undone otherwise |
| `Rls.Engine.Operation` | packages/db/src/rls.ts:323-376 | one operation: re-entry, fail-fast, uuid check, and the transaction around it |
| `Rls.Engine.OpenTransaction` | packages/db/src/rls.ts:152-157 | after the two SET LOCAL statements the settings are those of the context |
| `SoftDelete.FilteredReadIsLiveRead` | packages/db/src/soft-delete.ts:57-73 | a read with no deletedAt at the top of its where equals the raw read on the live rows, whatever is nested below |
| `SoftDelete.DeleteSimulates` | packages/db/src/soft-delete.ts:145-182 | delete and deleteMany commute with taking the live rows; the answer differs from a real delete's exactly when a match is in the trash |
| `SoftDelete.StepSimulates` | packages/db/src/soft-delete.ts:87-182 | for every operation, exactly when the live rows and exactly when the answer (a first row, rows, a count, a refusal) are those of a table that really deletes; for aggregates and groupings, when the answer is |
| `SoftDelete.RunSimulates` | packages/db/src/soft-delete.ts:85-226 | over whole runs that do not restore rows or clash with ids in the trash: same live rows, and same answers exactly until an operation sees the trash (summaries one way) |
| `SoftDelete.LiveAgreesIff` | packages/db/src/soft-delete.ts:85-226 | over any run the live rows are throughout those of a table that really deletes, exactly when no operation restores a row or runs into an id in the trash |
| `SoftDelete.OnlyForceDeleteRemoves` | packages/db/src/soft-delete.ts:213-226 | no run without a forceDelete of a row takes the row out of the table |
| `SoftDelete.RestoreUndoesDelete` | packages/db/src/soft-delete.ts:145-158 | a deleted row leaves the live rows, and clearing its deletedAt gives back the table as it was |
| `SoftDelete.ReadsAnswer` | packages/db/src/soft-delete.ts:85-130 | each of the eight reads by its answer: first row there is, null or an error, the rows, their number; the trash hidden from six of them unless deletedAt is a key of the where |
| `SoftDelete.WritesAct` | packages/db/src/soft-delete.ts:132-226 | the writes row by row: which rows change, how, and which answer; only forceDelete takes a row out |
| `SoftDelete.WhereMeans` | packages/db/src/soft-delete.ts:57-73 | when a where with nested AND, OR and NOT lists matches a row, and when it rejects one, in three-valued logic |
| `SoftDelete.Delegate.FindMany` | packages/db/src/soft-delete.ts:102-107 | the intercepted read returns the live matches unless deletedAt is explicit or the model has no such column |
| `SoftDelete.Delegate.Delete` | packages/db/src/soft-delete.ts:145-158 | stamps, or removes when the model has no deletedAt; either way the live rows lose exactly the matches |
| `SoftDelete.Delegate.DeleteMany` | packages/db/src/soft-delete.ts:172-182 | the same for many; without a where every row goes |
| `SoftDelete.Delegate.ForceDelete` | packages/db/src/soft-delete.ts:213-226 | removes exactly the row with the id, trashed or not |
| `Sessions.NeverReactivated` | packages/auth/src/auth/auth.service.ts:284-377 | no run brings an inactive session back, and ids are never reissued |
| `Sessions.AcceptedOnce` | packages/auth/src/auth/auth.service.ts:329-362 | an accepted refresh token is refused ever after, and with the theft alarm until it expires |
| `Sessions.TheftRevokesEverything` | packages/auth/src/auth/auth.service.ts:329-345 | after the alarm no token issued up to then to that user is accepted again |
| `Sessions.RevokedForever` | packages/auth/src/auth/auth.service.ts:690-704 | the same after a password reset |
| `Sessions.RefreshConserves` | packages/auth/src/auth/auth.service.ts:347-377 | a successful refresh trades one active session for one and leaves other users' alone |
| `Sessions.IssuedIsAccepted` | packages/auth/src/auth/auth.service.ts:755-800 | what a login hands out is accepted, after any run, exactly until seven days later and while its session is active, and no other token opens that session |
| `Sessions.RefreshAnswers` | packages/auth/src/auth/auth.service.ts:284-377 | the three answers of a refresh and all they change: a refusal nothing, the alarm all sessions of that user and nobody else's, a success one session for one |
| `Sessions.AuthService.RefreshTokens` | packages/auth/src/auth/auth.service.ts:256-377 | the checks in their order, rotation and the theft branch, as one step |
| `Sessions.AuthService.LogoutSession` | packages/auth/src/auth/auth.service.ts:541-553 | only that session is closed |
| `Sessions.AuthService.RevokeSessions` | packages/auth/src/auth/auth.service.ts:690-704 | the user is left with no active session, others untouched |
| `RefreshProtocol.NeverTakenForTheftIffOneTab` | packages/auth-web/src/auth-refresh.ts:28-66 | over all runs in which no end of a session, late refresh or page load overlaps a refresh in one of the three harmful ways, logouts in between included, the theft branch is unreachable exactly with at most one tab |
| `RefreshProtocol.SafeIffNothingBreaksIn` | packages/auth-web/src/auth-logout.ts:21-40 | with one tab, after any such run and any one event more, theft stays out of reach of such runs exactly when that event is not one of the harmful overlaps |
| `RefreshProtocol.HarmIsDone` | packages/auth/src/auth/auth.service.ts:329-345 | each harmful overlap has a continuation by ordinary events that sets off the alarm |
| `RefreshProtocol.EachHarmOccurs` | packages/auth-web/src/auth-refresh.ts:44-66 | with a refresh out, a page load, a logout and a revocation each do harm; between the halves of a logout, so does a late 401 that begins one |
| `RefreshProtocol.StepKeeps` | packages/api-client/src/index.ts:118-135 | the invariant behind it, event by event: 401s, waiting requests, logins, lost replies, the two halves of a logout, revocations, page loads, the server's read, deactivate and create; all but the harmful overlaps keep it |
| `RefreshProtocol.PresentedOnce` | packages/auth-web/src/auth-refresh.ts:44-66 | with one tab, over such runs, a refresh token is sent again only after the server refused it |
| `RefreshProtocol.LogoutIsCalm` | packages/auth-web/src/auth-logout.ts:21-40 | after any such run, a logout with no refresh in flight and none begun between its halves does no harm, whatever else comes in between; it ends with no token stored and its session closed for good |
| `RefreshProtocol.RevokedTokenLooksStolen` | packages/auth/src/auth/auth.service.ts:329-345 | a token that would be accepted, revoked first, sets off the alarm at the tab's next refresh |
| `RefreshProtocol.AtMostOneRetry` | packages/api-client/src/index.ts:105-141 | any number of tabs: a request is fetched at most twice, and one that waits is woken by its tab's refresh |
| `RefreshProtocol.ReplyResumes` | packages/api-client/src/index.ts:118-135 | when a tab's refresh is answered, exactly its waiting requests are fetched again if there is a new pair, which is stored, and fail if not; when the answer is lost they fail |
| `RefreshProtocol.RefreshedAndRetried` | packages/api-client/src/index.ts:105-141 | the whole course: 401, refresh with the stored token, one session for another, the new pair stored, the request fetched again |
| `RefreshProtocol.FetchEnds` | packages/api-client/src/index.ts:105-141 | over any run a request that is served has succeeded, with two fetches exactly when it was refreshed for; a retry that is refused has failed and sends no refresh |
| `RefreshProtocol.FirstRefusal` | packages/auth-web/src/auth-refresh.ts:44-66 | a first 401 joins the tab's refresh, or posts the stored token and waits, or fails for want of one; nothing else moves |
| `RefreshProtocol.BurstSendsOneRefreshPerTab` | packages/auth-web/src/auth-refresh.ts:44-66 | a burst of 401s starts exactly one refresh in each tab that was idle and is not any more |
| `RefreshProtocol.StatementsMakeARefresh` | packages/auth/src/auth/auth.service.ts:284-377 | the three server statements uninterrupted are one refresh of the sessions model |
| `RefreshProtocol.Browser.BeginRefresh` | packages/auth-web/src/auth-refresh.ts:44-52 | joins the refresh under way, or sends the stored token, or gives up without one |
| `RefreshProtocol.Browser.EndRefresh` | packages/auth-web/src/auth-refresh.ts:28-66 | both tokens saved or both cleared, and the variable reset on every path |
| `RefreshProtocol.Browser.SetTokens` | packages/auth-web/src/auth.ts:16-21 | the two keys hold the pair |
| `Lockout.StoreIsTheWindow` | packages/auth/src/auth/lockout.service.ts:93-126 | the pruned, expiring set is exactly the failures since the last reset within the window of the full history |
| `Lockout.PromotionIsByHistory` | packages/auth/src/auth/lockout.service.ts:104-120 | a failure promotes exactly when the history has `threshold` failures in the window |
| `Lockout.CountedIsSinceReset` | packages/auth/src/auth/lockout.service.ts:128-140 | what is counted are the failures after the last reset and within the window, each once |
| `Lockout.LockoutEnds` | packages/auth/src/auth/lockout.service.ts:73-126 | the identifier is locked out exactly while the last failure since the last reset that filled its window is less than the duration old |
| `Lockout.LockoutBound` | packages/auth/src/auth/auth.service.ts:157-167 | every interval of window length without a success records at most threshold + limit - 1 failures, where limit bounds the logins at work at a time, each until its reset or the SET of the lock key; at most threshold one login at a time |
| `Lockout.BoundIsReached` | packages/auth/src/auth/auth.service.ts:199-241 | logins that check together meet every premise of that bound and reach it, for every configuration |
| `Lockout.LockoutService.RecordFailedAttempt` | packages/auth/src/auth/lockout.service.ts:93-126 | the keys stay those of the history, and promotion is by the history's count |
| `Lockout.LockoutService.CheckLockout` | packages/auth/src/auth/lockout.service.ts:73-91 | none without the key or past its deadline, locked before it, and so by the history; the seconds returned are the remaining time rounded up |
| `Lockout.LockoutService.ResetAttempts` | packages/auth/src/auth/lockout.service.ts:128-140 | both keys of the identifier are gone, and no others change |
| `NoteSpese.DecisionsAreSound` | apps/accountant-api/src/note-spese/note-spese.service.ts:268-378 | any interleaving: one decision per sending, none after approval, never by the author, fields matching the state |
| `NoteSpese.DecisionsFromTheStart` | apps/accountant-api/src/note-spese/note-spese.service.ts:268-378 | the same over every run from empty tables |
| `NoteSpese.GatesAlwaysHold` | apps/accountant-api/src/note-spese/note-spese.service.ts:189-219 | with each author's requests serialised, sent and approved notes satisfy both gates on their current content |
| `NoteSpese.GatesHoldIffSerialised` | apps/accountant-api/src/note-spese/note-spese.service.ts:268-318 | serialising each author's requests is enough for every run, and some run without it breaks a gate |
| `NoteSpese.StepBreaksGateIff` | apps/accountant-api/src/note-spese/note-spese.service.ts:189-219 | with any overlap, one statement takes a gate from a sent note exactly when it is a late sending, a late edit the attachments do not cover, or a late removal of a needed attachment |
| `NoteSpese.GatesHoldThroughoutIff` | apps/accountant-api/src/note-spese/note-spese.service.ts:268-318 | over any run the gates hold throughout exactly when none of the three lands |
| `NoteSpese.SerialisedNeverBreaks` | apps/accountant-api/src/note-spese/note-spese.service.ts:268-318 | with each author's requests serialised none of the three ever lands |
| `NoteSpese.ApprovedForever` | apps/accountant-api/src/note-spese/note-spese.service.ts:394-404 | with each author's requests serialised, an approved note and its attachments never change again |
| `NoteSpese.StepReachesIff` | apps/accountant-api/src/note-spese/note-spese.service.ts:221-252 | with any overlap, one statement changes an approved note or its attachments exactly when it is an edit that changes it, a delete, an upload of a new kind, or a detach |
| `NoteSpese.ApprovedUntouchedIff` | apps/accountant-api/src/note-spese/note-spese.service.ts:394-404 | over any run an approved note stays as it is exactly when none of the four lands on it |
| `NoteSpese.LateRemoveDeletesApproved` | apps/accountant-api/src/note-spese/note-spese.service.ts:221-252 | a run from empty tables in which a late remove deletes an approved note |
| `NoteSpese.DetachDeleteKeeps` | apps/accountant-api/src/note-spese/note-spese-allegati.service.ts:106-125 | removing an attachment breaks no gate of a sent note and leaves no attachment without its file |
| `NoteSpese.UploadInsertKeeps` | apps/accountant-api/src/note-spese/note-spese-allegati.service.ts:52-93 | nor does the row of an upload |
| `NoteSpese.UpdateMeans` | apps/accountant-api/src/note-spese/note-spese.service.ts:189-219 | the answer of an edit exactly, and the note after it field by field; nothing else changes |
| `NoteSpese.RemoveMeans` | apps/accountant-api/src/note-spese/note-spese.service.ts:221-252 | the same for a delete: the note, its attachments and their files go, others' stay |
| `NoteSpese.UploadMeans` | apps/accountant-api/src/note-spese/note-spese-allegati.service.ts:52-93 | the same for an upload: one attachment of a kind, and no file left of a refused one |
| `NoteSpese.InviaMeans` | apps/accountant-api/src/note-spese/note-spese.service.ts:268-318 | the same for a sending: both gates, and a clean slate |
| `NoteSpese.DecisionsMean` | apps/accountant-api/src/note-spese/note-spese.service.ts:322-378 | the same for the decisions: not by the author, of a sent note; the reason of a refusal is what was given without the blanks around it |
| `NoteSpese.NoteSpeseService.UpdateNota` | apps/accountant-api/src/note-spese/note-spese.service.ts:189-219 | one request, uninterrupted, is the statements of the specification |
| `NoteSpese.NoteSpeseService.RemoveNota` | apps/accountant-api/src/note-spese/note-spese.service.ts:221-252 | the note, its attachments and, by the loop, all their files |
| `NoteSpese.NoteSpeseService.InviaNota` | apps/accountant-api/src/note-spese/note-spese.service.ts:268-318 | gates, then the conditional update |
| `NoteSpese.NoteSpeseService.Decidi` | apps/accountant-api/src/note-spese/note-spese.service.ts:348-378 | the checks of a decision, then the conditional update |
| `NoteSpese.NoteSpeseService.UploadAllegato` | apps/accountant-api/src/note-spese/note-spese-allegati.service.ts:52-93 | file first, row next, file removed when the row is refused |
| `Numbering.AlwaysGapless` | apps/accountant-api/src/mandati/mandati.service.ts:43-110 | any interleaving with aborts: each key's numbers are exactly 1..last, each once, soft-deleted rows included, and no quote has two live mandates |
| `Numbering.GaplessFromTheStart` | apps/accountant-api/src/comunicazioni/comunicazioni.service.ts:167-219 | the same from empty tables |
| `Numbering.CommitExtends` | apps/accountant-api/src/mandati/mandati.service.ts:60-110 | a commit leaves every key's numbers without gap or repetition, and every quote with at most one live mandate |
| `Numbering.RdlCodesDistinct` | apps/accountant-api/src/mandati/mandati.service.ts:87-87 | two mandates of a tenant never share a code |
| `Numbering.NextNumberIsNew` | apps/accountant-api/src/comunicazioni/comunicazioni.service.ts:187-187 | the number about to be inserted has a code no row of its key has |
| `Numbering.NumberedTable.Create` | apps/accountant-api/src/mandati/mandati.service.ts:43-114 | which answer exactly when; the next number, the row, the quote converted, or nothing; in every case the state after its six statements |
| `Numbering.SoloIsCreate` | apps/accountant-api/src/mandati/mandati.service.ts:43-114 | that creation is a run of the protocol |
| `Numbering.DeletedMandateFreesItsQuote` | apps/accountant-api/src/mandati/mandati.service.ts:158-170 | after a mandate is deleted another one of its quote is made exactly when the quote is accepted, which the deletion does not make it |
| `Numbering.RollbackLeavesNothing` | apps/accountant-api/src/mandati/mandati.service.ts:43-110 | a creation rolled back after any of its statements leaves everything as it was |
| `Codes.RdlRoundTrip` | apps/accountant-api/src/mandati/mandati.service.ts:87-87 | a mandate code parses back to its year and number, past 9999 too |
| `Codes.ComRoundTrip` | apps/accountant-api/src/comunicazioni/comunicazioni.service.ts:187-187 | a communication code parses back to its number |
| `Codes.ValueOfPadded` | apps/accountant-api/src/mandati/mandati.service.ts:87-87 | padding never changes the number |
| `Codes.CodesLook` | apps/accountant-api/src/mandati/mandati.service.ts:87-87 | the prefix, the year, and the number in exactly four digits up to 9999 and unpadded after |
| `Preventivi.RoundingBound` | apps/accountant-api/src/preventivi/preventivi.service.ts:45-76 | the total is within (1 + rate/200) cents a row of the unrounded discounted sum with tax |
| `Preventivi.BoundIsReached` | apps/accountant-api/src/preventivi/preventivi.service.ts:45-76 | and for every number of rows some quote is that far off |
| `Preventivi.AggregatesAreRounded` | apps/accountant-api/src/preventivi/preventivi.service.ts:72-74 | rounding the three aggregates changes nothing |
| `Preventivi.TotaliOfPermutation` | apps/accountant-api/src/preventivi/preventivi.service.ts:66-71 | the totals do not depend on the order of the rows |
| `Preventivi.ComputeTotali` | apps/accountant-api/src/preventivi/preventivi.service.ts:57-76 | each row's total is its discounted amount to the nearest cent; the taxable total is their sum, within half a cent a row of the exact one; the tax is in cents, within half a cent a row of the exact tax on those rows; the total is both together |
| `Preventivi.MirrorTotali` | apps/accountant-web/src/lib/preventivi-totali.ts:35-60 | the client's loop gives the same totals, of the same meaning |
| `Preventivi.ComputeVoce` | apps/accountant-api/src/preventivi/preventivi.service.ts:45-55 | the discounted amount to the nearest cent, halves upwards, and the tax on that row likewise |
| `Preventivi.TotalsAlwaysStored` | apps/accountant-api/src/preventivi/preventivi.service.ts:202-260 | any interleaving of creates and updates: the stored totals, and each row's, are those of the stored rows |
| `Preventivi.StoredTotalsInAnyOrder` | apps/accountant-api/src/preventivi/preventivi.service.ts:121-171 | in whatever order the rows are read back |
| `Preventivi.CommitStores` | apps/accountant-api/src/preventivi/preventivi.service.ts:232-252 | a replacement that commits leaves exactly the new rows and their totals, and other quotes' rows and totals alone |
| `Preventivi.UpdateGoesThrough` | apps/accountant-api/src/preventivi/preventivi.service.ts:208-252 | an update with rows, undisturbed, ends with the old rows gone and the new ones and their totals stored |
| `Preventivi.RollbackLeavesNothing` | apps/accountant-api/src/preventivi/preventivi.service.ts:208-252 | rolled back after any of its statements it leaves everything as it was |
| `Preventivi.PreventiviService.StoreVoci` | apps/accountant-api/src/preventivi/preventivi.service.ts:202-260 | header totals and rows after one replacement |
| `Preventivi.PreventiviService.Create` | apps/accountant-api/src/preventivi/preventivi.service.ts:104-172 | the errors in their order, and the whole new state |
| `Preventivi.PreventiviService.Update` | apps/accountant-api/src/preventivi/preventivi.service.ts:174-261 | the same, with rows or without |
| `Rbac.CheckDrift` | packages/db/scripts/check-role-permissions-drift.ts:223-404 | exit 0 exactly when the code's catalogue is in the database, a live role exists, and every live role is a system role with its namesake template's permissions; C1 to C4 list exactly what is off |
| `Rbac.GreenIsEveryCheck` | packages/db/scripts/check-role-permissions-drift.ts:307-360 | the live roles match exactly when C2, C3 and C4 are empty |
| `Rbac.FindingsAre` | packages/db/scripts/check-role-permissions-drift.ts:307-360 | a finding is in C2, or in C3, exactly when such a role lacks a code of its template, or has one more |
| `Rbac.SeedLeaves` | packages/db/prisma/seed.ts:1043-1135 | the tables after the seed, row by row |
| `Rbac.BootstrapAndGate` | packages/auth/src/tenants/tenants.service.ts:126-151 | a new tenant leaves the gate green exactly when the catalogue, the roles before it and the default templates all match the code |
| `Rbac.BootstrapsKeepGreen` | packages/auth/src/tenants/tenants.service.ts:126-161 | any number of tenants keeps it green |
| `Rbac.SeedMakesC2` | packages/db/prisma/seed.ts:1113-1134 | after the seed of a grown catalogue C2 lists exactly the new (tenant, role, code) triples, C3 and C4 nothing |
| `Rbac.RemedyFillsC2` | packages/db/scripts/check-role-permissions-drift.ts:432-446 | after the remedy nothing is missing |
| `Rbac.RemedyWrites` | packages/db/scripts/check-role-permissions-drift.ts:432-446 | live system roles get the codes of their namesake template on top of their own; deleted and custom roles, and all else, stay as they are |
| `Rbac.RemedyAndC3` | packages/db/scripts/check-role-permissions-drift.ts:432-446 | C3 only grows, and exactly when some role would get a leftover of its template |
| `Rbac.RemedyIsIdempotent` | packages/db/scripts/check-role-permissions-drift.ts:432-446 | a second remedy does nothing |
| `Rbac.RemedyRestoresGreen` | packages/db/scripts/check-role-permissions-drift.ts:415-450 | the remedy restores green exactly when C3 and C4 are empty and no leftover is missing |
| `Rbac.DeployEndsGreen` | packages/db/prisma/seed.ts:1043-1135 | green, tenants, seed of a grown catalogue, remedy: green again |
| `Rbac.Database.Seed` | packages/db/prisma/seed.ts:1043-1135 | the upsert loops: the catalogue is added and nothing removed; an unknown code stops them part way |
| `Rbac.Database.CreateTenant` | packages/auth/src/tenants/tenants.service.ts:44-200 | all or nothing: slug taken, no default Super Admin template, or one role for each default template |
| `Rbac.Database.CloneTemplates` | packages/auth/src/tenants/tenants.service.ts:126-151 | the loops clone each default template once, with exactly its permissions |
| `Circolari.ReportAgreesWithPortal` | apps/accountant-api/src/circolari/circolari.service.ts:458-468 | a published circular is expected of exactly the clients who see it; of clients without a company, when it is for all |
| `Circolari.WhoMayOpen` | apps/accountant-api/src/circolari/circolari.service.ts:458-468 | a circular opens exactly for clients of a company, when it is there, published, and for everybody or that company |
| `Circolari.RecipientsAccepted` | apps/accountant-api/src/circolari/circolari.service.ts:504-548 | a list is accepted exactly when each recipient is everybody or a company of the tenant |
| `Circolari.DeletedIsGone` | apps/accountant-api/src/circolari/circolari.service.ts:258-273 | over runs of whole requests a deleted circular never changes, and every request about it fails |
| `Circolari.WholeUpdateMeans` | apps/accountant-api/src/circolari/circolari.service.ts:166-222 | an edit that passes its checks replaces each field it carries and no other, and any other edit nothing |
| `Circolari.ReadersAlwaysExpected` | apps/accountant-api/src/circolari/circolari.service.ts:166-273 | over all runs of whole requests every read is by somebody the report expects |
| `Circolari.ReadersExpectedIffAtomic` | apps/accountant-api/src/circolari/circolari.service.ts:166-222 | whole requests are enough for every run, and some interleaved run loses a reader |
| `Circolari.StepLosesIff` | apps/accountant-api/src/circolari/circolari.service.ts:198-221 | when interleaved, one event leaves a reader unexpected exactly when its write drops a reader or a wanted confirmation, or is a read or confirmation that is no longer for the user |
| `Circolari.StepMovesIff` | apps/accountant-api/src/circolari/circolari.service.ts:424-441 | one event moves the time of a confirmation exactly when it writes one that was made since its check |
| `Circolari.StepBackIff` | apps/accountant-api/src/circolari/circolari.service.ts:225-273 | one event takes a circular back, or changes it after publication, exactly when its write finds it past the state it was checked in |
| `Circolari.KeptThroughoutIff` | apps/accountant-api/src/circolari/circolari.service.ts:166-273 | over any interleaved run each of the three promises is kept throughout exactly when no write of its breaking kind lands |
| `Circolari.LatePublishRevives` | apps/accountant-api/src/circolari/circolari.service.ts:225-256 | a publication checked twice and written once after the archive publishes the circular again |
| `Circolari.ReportIsComplete` | apps/accountant-api/src/circolari/circolari.service.ts:282-353 | one row for each expected user and no other, with the times of the read there is; the report counts every read and confirmation, confirmed <= read <= expected |
| `Circolari.WrittenOnce` | apps/accountant-api/src/circolari/circolari.service.ts:403-453 | over runs of whole requests reads and confirmations keep their times; a circular only moves on, and once published only its state changes |
| `Circolari.LettaAtWrittenOnce` | apps/accountant-api/src/circolari/circolari.service.ts:446-453 | the time of a read survives interleaving too |
| `Circolari.ConfirmationMoves` | apps/accountant-api/src/circolari/circolari.service.ts:424-441 | two overlapping confirmations at any two times: the second moves the time exactly when the two differ |
| `Circolari.CircolariService.ValidateDestinatari` | apps/accountant-api/src/circolari/circolari.service.ts:504-548 | the first broken rule in order, then unknown companies |
| `Circolari.CircolariService.Create` | apps/accountant-api/src/circolari/circolari.service.ts:130-164 | a draft, or the first error of its recipients |
| `Circolari.CircolariService.Update` | apps/accountant-api/src/circolari/circolari.service.ts:166-222 | errors in order; recipients replaced as a whole |
| `Circolari.CircolariService.GetForCliente` | apps/accountant-api/src/circolari/circolari.service.ts:377-399 | visible or not found; the first opening is the read |
| `Circolari.CircolariService.ConfermaCliente` | apps/accountant-api/src/circolari/circolari.service.ts:403-442 | the first confirmation's time is returned and kept |
| `Calendar.ShiftAdds` | apps/accountant-web/src/lib/note-spese-date.ts:24-29 | shifting is additive wherever the first step gave a month |
| `Calendar.ShiftStaysMese` | apps/accountant-web/src/lib/note-spese-date.ts:24-29 | the result is a month string exactly for years of four digits, at the place asked for |
| `Calendar.ShiftByNothing` | apps/accountant-web/src/lib/note-spese-date.ts:24-29 | shifting by nothing is the identity exactly on months written as the calendar writes them |
| `Calendar.ShiftBack` | apps/accountant-web/src/lib/note-spese-date.ts:24-29 | there and back again |
| `Calendar.FilterIsTheMonth` | apps/accountant-api/src/note-spese/note-spese.service.ts:453-460 | the filter lets through exactly the days of the month, and every day when the string is no month |
| `Calendar.EveryDayHasItsMonth` | apps/accountant-api/src/note-spese/note-spese.service.ts:453-460 | a day is in the filter of some month from 01 to 12 exactly when its year goes from 100 to 9999 |
| `Calendar.FiltersTile` | apps/accountant-api/src/note-spese/note-spese.service.ts:453-460 | one month's interval ends where the next begins |
| `Calendar.GiorniAre` | apps/accountant-web/src/lib/note-spese-date.ts:32-34 | the last day's number is the length of the month |
| `Calendar.OffsetIsSinceMonday` | apps/accountant-web/src/lib/note-spese-date.ts:37-40 | the offset is the number of days from the last Monday to the first of the month |
| `Calendar.OffsetsFollow` | apps/accountant-web/src/lib/note-spese-date.ts:37-40 | the next month's offset is this one's plus its days, mod 7 |
| `Calendar.OffsetsFollowOverYears` | apps/accountant-web/src/lib/note-spese-date.ts:37-40 | over a year's end the same, except after the years -1 and 99 |
| `Calendar.MakeDayIsStandard` | apps/accountant-web/src/lib/note-spese-date.ts:27-27 | the month-by-month dates are those of MakeDay and DayFromYear in section 21.4.1 of ECMA-262 |
| `Calendar.YearBounds` | apps/accountant-web/src/lib/note-spese-date.ts:28-28 | and the year of a day is the last to have begun by DayFromYear, as that section defines it |

## Left out

- Nested atomic blocks, calls through the base client inside an atomic block, `$queryRaw`, relation includes and tables without row security: excluded from programs by the well-formedness predicates `Flat`, `Disciplined` and `Confined` in `Rls`.
- JWT signatures, argon2 and random bytes: tokens verify exactly when they were issued, and hashes match only their own token. PIN login, password-reset tokens, mail and audit rows.
- Redis and database outages with their fail-open paths, a service that dies between two calls of Redis, storage failures, and clocks that run backwards; ids and set members are always fresh.
- SoftDelete: an entry of an AND, OR or NOT list in which no condition is left counts as true; what Prisma makes of such an entry is not modelled.
- RefreshProtocol: the times of requests are free, so runs that no clock would allow are covered too; what a page does between its load and its first request is not modelled, and two page loads at once are two events.
- RunSimulates: excludes runs that restore a row or reuse the id of one in the trash, because the live rows then differ; LiveAgreesIff says that this is exactly when they do.
- StepSimulates: for aggregates and groupings only says when the answer is the same, because rows in the trash may happen not to change a summary; orderings are not modelled, so the first row is the first of the table.
- Numbering: a failed statement ends its transaction, and a statement that must wait is simply not enabled; deadlock detection and timeouts are not modelled.
- Preventivi: rounding errors of binary64 numbers and the width of the decimal columns; the race of two requests on one code, which the partial unique index settles; the texts, units and order of rows.
- Rbac: the order in which findings are printed, the texts of the report, and the choice of the container in the remedy; hard deletes of tenants with their cascades. A tenant that lacks a whole role is not seen by the gate, in the model as in the code.
- Circolari: one tenant, whose users and companies are fixed; titles, priorities and expiry dates.
- Calendar: strings that are not four digits, a dash and two digits, which `shiftMese` turns into invalid dates; the local time of `meseCorrente` and `oggiLocale`.
- Trim: only space, tab, line feed and carriage return count as white space in a refusal's reason.
- The WCAG colour arithmetic, and the services that only create, read, update and delete rows.
