# Models of Anda Bot's crash-safe and concurrent bookkeeping

The Bot keeps durable records about an embedded memory engine, Brain, that it cannot roll back,
and several smaller state machines around it. This project models those protocols and proves
what every run of them keeps: under deaths of the process between any two durable effects, under
interleavings of the parties that share the state, and for every answer of the parties it does
not control.

Each protocol module has the same shape. A `Machine` is the durable state, the state in memory
and the histories the properties speak of. An `Action` is one atomic effect or one turn; an
action that is not possible leaves the machine as it is, and `Exec` runs any sequence of them.
`Inv` is kept by every action, and the theorems are stated over every sequence of actions. Beside
it stands a class with the fields and branches of the original code, whose methods change those
fields step by step and whose contracts tie each call to the machine. Where a property fails, a
lemma builds the run on which it does, and the theorem carries the exact condition. The modules
`RecallTurns`, `PollTurns`, `ChangeTurns`, `SetupTurns`, `ReplyTurns`, `TaskOutcomes`,
`RequestOutcomes`, `GrantEffects`, `SocketTurns` and `UpdateChecks` say of the modules they import
what single steps and whole uninterrupted calls do, in terms of the fields they find and the
answers they get rather than of the machines' own functions.

| module | models |
|---|---|
| `Formation`, `WindowKeys` | the journal row of a conversation window and the attempts that form it |
| `Polling` | the change notifications two pollers drain from one journal |
| `Mutation` | an owner's memory change: previewed, admitted, requested, settled, recovered |
| `RecallBarrier` | receipts a conversation waits for, and the locked session that keeps them |
| `EntityPages` | two-level cursors over query pages with row, scan and byte budgets |
| `RecordPages` | the record list's byte-limited pages and the shortening of large records |
| `ActivityPages`, `Text` | the chronological text key and the pages that walk it |
| `Sources` | the per-request source cache and the visibility rule that rests on it |
| `InboxSetup` | the two-file setup and its recovery |
| `Outbox` | replies saved before they are sent |
| `TaskRuns`, `RequestLedger`, `FullLedger` | an evaluation run's task and tool-call state, and the host's request ledger |
| `Admission` | the maintenance lease |
| `AgentGrants` | other agents' tokens, their expiry and revocation |
| `ServiceWorker` | the extension's socket, RPCs, reconnect timer and action queue |
| `XPath` | the printer of element paths, against an XPath 1.0 reading of its output |
| `Releases`, `AutoUpdate` | release-tag order and the update state |

Assumptions, once for all modules: digests are injective, so a digest is modelled by what it
digests; generated tokens, Xids and event keys are fresh; clocks do not go backwards; one put,
rename or hard link is atomic, and one that reports an error changed nothing. Brain is an
idempotent interface: it binds a key to the first bytes it accepts, replays them and refuses
others; it may give a bound key its conversation at any later time. The native change repeated
for one operation quotes the text of the first. An index is a B-tree in text order.

## What turned out false

- A window submitted again unchanged can form twice, in two ways. `observe_window` can report an
  error after Brain bound the key: a rejection is recorded and the next submission moves to a new
  attempt (`Formation.LostAnswerFormsTwice`). And Brain can give a receipt its conversation after
  the receipt was recorded: unless a refresh reads it first, the next submission moves on
  (`Formation.LateConversationFormsTwice`). `Formation.UnchangedWindowFormsOnce` holds but for the
  attempts `lost` or `left` so, and `Formation.FormedIsLeftExactly` says which submission leaves a
  formed attempt.
- A process that dies between the durable `committing` of a deletion and the release of its native
  preview leaves a change that recovery refuses while its sources do not resolve
  (`Mutation.AdmittedBeforeTheRelease`); nothing else changes it either
  (`Mutation.RefusedStaysAdmitted`). `Mutation.RecoveryErases` is the exact condition.
- A settled deletion clears the text it quoted, but the native receipt copied at `prepare` stays
  in its record and quotes the same text, in every run: `Mutation.SettledDeletionKeepsItsText`.
- An operation whose interrupted preparation was discarded can be prepared again as a
  misrecording and then be requested (`Mutation.ReusedOperationIsRequested`);
  `Mutation.NothingFollowsTheDiscard` is what holds.
- A setup admitted by one caller is given up when another prepares one before the runtime file is
  written: `InboxSetup.AnotherCallerReplacesTheApply`, and exactly then
  (`InboxSetup.ApplyIsReplacedExactly`); otherwise it stays (`InboxSetup.AdmittedSetupStays`).
- A row of the activity index that is submitted again while a walk is under way, and so moves from
  below the cursor to above it, is missed by the walk: `ActivityPages.OvertakingRowIsMissed`, and
  exactly then (`ActivityPages.SelectedExactly`).
- An edit of the config between the check and the write is overwritten:
  `InboxSetup.EditDuringApplyIsLost`; without one the config is only ever replaced when it is the
  admitted one.
- After the first acknowledgement, a terminal that is slow to remove its pending file removes the
  reply another terminal saved since: `Outbox.SlowRemovalDropsAReply`.
- A reply within the 8192 bytes of text can make a pending file over the 32768 bytes that are read
  back, when it is mostly control characters (`Outbox.OversizedReplyIsSaved`). It then stays and
  keeps every reply to its item from being sent, and exactly then (`Outbox.SavedIsSentExactly`).
- A row that cannot be projected blocks every cursor before it; without one every visible row is
  shown once (`EntityPages.FollowingShowsEveryVisibleRowOnce`), provided rows are distinct
  (`EntityPages.RepeatedRowIsShownTwice`).
- A fully sourced record with more than 32 sources is hidden: `Sources.ManySourcesHideTheRecord`.
- A request that panics lets go of its run's lock before the run is ended, so a request queued
  behind it still operates on the run: `RequestLedger.PanicLetsOneThrough`.
- Copies of one request can be answered differently: turned away at a full ledger, and a conflict
  once a `close` took the identifier. `FullLedger.CloseTakesTheIdentifier` is the run, for every
  request but a close; it is the one exception in `RequestLedger.RepliesAgree`, and
  `FullLedger.AfterHostFullExactly` says which answer a further copy gets.
- Siblings whose tags differ only in case make a printed path select another element:
  `XPath.CaseOnlySiblingsMisread`; `XPath.PathSelectsItsElement` gives the exact condition.
- Two prereleases of one release tie (`Releases.PrereleasesTie`), and tags that do not parse are
  each newer than the other (`Releases.OneSidedExactly`).

## Model

| member | source | states |
|---|---|---|
| Formation.DurableBeforeAsked | anda_bot/src/brain/journal.rs:298-382 | In every run, when Brain is asked to observe an attempt, the durable row already names that attempt and those bytes. |
| Formation.RetriesRepeatTheirBytes | anda_bot/src/brain/journal.rs:298-382 | Two asks about one attempt between which the submitted input did not change carry the same bytes, so Brain replays rather than binds again. |
| Formation.AttemptMovesForAReason | anda_bot/src/brain/journal.rs:331-382 | The attempt of the durable row changes only by a save, by one, and only after a recorded rejection, a receipt without a native conversation, or one idempotency conflict. |
| Formation.AttemptsNeverFall | anda_bot/src/brain/journal.rs:298-429 | Over any continuation of a run, crashes included, the attempt never decreases. |
| Formation.ClosedIsNeverAsked | anda_bot/src/brain/journal.rs:318-330 | A window with a native conversation, or suppressed, stays so and Brain is never asked about it again. |
| Formation.FormsAgainOnlyWhenChanged | anda_bot/src/brain/journal.rs:331-382 | When two attempts are bound, the submitted input changed between them, or the answer to the first was lost, or the first was left while its recorded receipt had no conversation. |
| Formation.UnchangedWindowFormsOnce | anda_bot/src/brain/journal.rs:298-429 | A window submitted any number of times with one input, through any crashes, retries and refreshes, gets a second conversation only if the first attempt was lost (its answer was an error after Brain bound it) or left (its conversation came after its receipt was recorded). |
| Formation.MovesPastExactly | anda_bot/src/brain/journal.rs:331-349 | While the input is unchanged, a bound attempt whose answer was not lost is behind the row if and only if it was left. |
| Formation.FormedIsLeftExactly | anda_bot/src/brain/journal.rs:318-349 | A submission of the unchanged input moves past an attempt that has a conversation if and only if the row does not know of it and holds a receipt, or a rejection of an answer that was lost. |
| Formation.LostAnswerFormsTwice | anda_bot/src/brain/memory.rs:117-184 | A run in which an error is reported after Brain bound the key and the unchanged window is formed twice. |
| Formation.LateConversationFormsTwice | anda_bot/src/brain/journal.rs:331-334 | A run in which no answer is lost and the unchanged window is formed twice, because the first conversation came after its receipt was recorded. |
| Formation.ReplacedNeverConflicts | anda_bot/src/brain/journal.rs:352-382 | An attempt replaced after a conflict is one Brain never bound, so one submission meets at most one conflict. |
| Formation.ReplyIsRecorded | anda_bot/src/brain/journal.rs:384-427 | From every reachable state with a saved row: an excluded window is recorded as suppressed and closed and Brain is unchanged; a refusal or lost answer is recorded as a rejected submission; an answer puts its receipt, or the one bound before, its conversation and the state of its phase in the row; a conflict asks for the next attempt. |
| Formation.SubmissionIsSaved | anda_bot/src/brain/journal.rs:298-350 | What is saved for a submission has its input and no receipt, and the times of the first submission of its attempt; the attempt is a new one exactly when the stored one failed or has a receipt. |
| Formation.ReplacementIsSaved | anda_bot/src/brain/journal.rs:360-376 | The attempt that replaces a conflicting one is the next, unbound, with the input and the times of this submission. |
| Formation.LeavesExactly | anda_bot/src/brain/journal.rs:331-334 | An attempt is left if and only if another is saved over a row that holds its receipt. |
| Formation.RefreshReadsProgress | anda_bot/src/brain/journal.rs:433-477 | A refresh puts the phase and Brain's conversation in an open row with a receipt and leaves every other row as it is. |
| Formation.WindowJournal.SubmitFormation | anda_bot/src/brain/journal.rs:262-429 | One uninterrupted submission performs exactly the effects of the specification, in order; an open window ends suppressed, rejected or taken in as Brain replied, and the submission succeeds exactly when the window ends closed. |
| Formation.WindowJournal.ObserveWindow | anda_bot/src/brain/journal.rs:352-429 | The save, ask, replace-once loop performs the specified effects and leaves durable the row it returns, which is what Brain's reply makes of the window. |
| Formation.WindowJournal.RefreshFormation | anda_bot/src/brain/journal.rs:433-477 | A refresh reads progress from the receipt, asks Brain nothing, and never reopens a closed window. |
| WindowKeys.ObserveKeysDiffer | anda_bot/src/brain/memory.rs:128-131 | Keys of different conversations, windows or attempts never coincide, although the numbers are printed unpadded. |
| Polling.DisjointPrefixes | anda_bot/src/brain/journal.rs:38-49 | No journal key is under the prefixes of both pollers, so neither can take a mark meant for the other. |
| Polling.NoChangeIsLost | anda_bot/src/brain/journal.rs:32-70 | In every interleaving of writers, two pollers and restarts: a key of a scanned poller whose last completed write came after the read that ended in `finish(key, false)` is marked or pending. |
| PollTurns.PollSettles | anda_bot/src/brain/journal.rs:33-70 | A scanned poller that is let run settles a key that is marked or pending at the version that is stored, and leaves it neither marked nor pending. |
| PollTurns.DrainExactly | anda_bot/src/brain/journal.rs:33-64 | A poller takes the marks under its prefixes and no others, and then works on all that is pending or lists what is stored. |
| Polling.Journal.Write | anda_bot/src/brain/journal.rs:213-221 | A write stores the value and then marks the key, and changes no other key or mark. |
| Polling.Journal.Create | anda_bot/src/brain/journal.rs:223-245 | A create stores and marks only a key that was free, and reports which. |
| Polling.JournalPoll.Keys | anda_bot/src/brain/journal.rs:33-64 | The keys to process are everything pending: marks taken from the journal and, the first time, all stored keys under the prefixes. |
| Mutation.RequestsAreAdmitted | anda_bot/src/brain/mutation.rs:406-466 | A `forget` or `revise` is sent only after the preview was revalidated and `committing` was made durable. |
| Mutation.NothingFollowsTheDiscard | anda_bot/src/brain/mutation.rs:311-351 | A discard of a stored change, even one interrupted after the native release, is followed by no request; a discard of a preparation that left no record is followed by no `forget`, and by a `revise` only for a preview recorded since. |
| Mutation.ReusedOperationIsRequested | anda_bot/src/brain/mutation.rs:332-336 | A run in which an operation discarded before it had a record is prepared again and requested. |
| Mutation.ResendsAreEqual | anda_bot/src/brain/mutation.rs:552-726 | All requests of one operation, across crashes and recoveries, are one request: same kind, key and payload. |
| Mutation.FinalIsForever | anda_bot/src/brain/mutation.rs:406-425 | Discarded, failed, blocked and settled-confirmed records never change again, whatever is tried. |
| Mutation.ConfirmedIsSettled | anda_bot/src/brain/mutation.rs:80-95 | A stored confirmed record carries no error, and a deletion no longer quotes what it deleted. |
| Mutation.DeletionIsNeverNative | anda_bot/src/brain/mutation.rs:443-463 | A deletion that was not already confirmed natively never goes through the native product commit. |
| Mutation.RecoveryErases | anda_bot/src/brain/mutation.rs:432-463 | From any crash after a deletion's admission, one recovery with a completed erasure ends confirmed and settled if and only if the change is readable and, while its native preview is unreleased and Nexus is there, its sources resolve. |
| Mutation.RefusedStaysAdmitted | anda_bot/src/brain/mutation.rs:432-452 | Until a recovery can resume it, no sequence of recoveries, discards, preparations and deaths changes an admitted deletion or asks for anything. |
| Mutation.AdmittedBeforeTheRelease | anda_bot/src/brain/mutation.rs:450-461 | A run that leaves an admitted deletion whose recovery is refused while its sources do not resolve, and resumed when they do. |
| Mutation.SettledDeletionKeepsItsText | anda_bot/src/brain/mutation.rs:89-95 | In every run the record of a settled deletion has no preview or affected records left, and its native receipt quotes exactly the text that was previewed. |
| Mutation.DeletionSettles | anda_bot/src/brain/mutation.rs:658-726 | For every deletion there is a run, with a death in it, that settles it. |
| Mutation.StateIsTheAnswers | anda_bot/src/brain/mutation.rs:552-726 | In every run a stored deletion is confirmed if and only if it was answered as completed or partial, blocked with `legal_hold` if and only if held back, failed if and only if rejected, and otherwise waits; a correction is confirmed if and only if it was processed or available, and failed if and only if it was rejected or its processing failed. |
| Mutation.AnswersWereRequested | anda_bot/src/brain/mutation.rs:552-726 | An answer is stored only after a request was sent. |
| Mutation.CommitShowsItsAnswer | anda_bot/src/brain/mutation.rs:406-508 | A commit stores its answer if and only if it was admissible and the answer is of its kind, and what is stored is what that answer says, natively answered changes included. |
| ChangeTurns.RefusedChangesNothing | anda_bot/src/brain/mutation.rs:406-466 | A commit that is not admissible leaves everything as it is. |
| ChangeTurns.RequestsSayTheChange | anda_bot/src/brain/mutation.rs:552-692 | A request is sent only when the record durably says `committing`, under the operation's own key, with the target and text of the record. |
| ChangeTurns.NativeExactly | anda_bot/src/brain/mutation.rs:437-508 | A deletion's native change is released before Brain is asked, a correction has none touched, and any other kind keeps what its service answered. |
| ChangeTurns.PrepareExactly | anda_bot/src/brain/mutation.rs:199-309 | A preparation stores the previewed change with the native change it made, or gives that up again when its sources do not resolve. |
| ChangeTurns.DiscardExactly | anda_bot/src/brain/mutation.rs:311-351 | A discard clears what a prepared change showed and releases the native change it holds, or what an interrupted preparation left; any other change stays. |
| ChangeTurns.DiscardedShowsNothing | anda_bot/src/brain/mutation.rs:311-351 | In every run a discarded record shows no text, no affected record and no new value. |
| Mutation.MutationService.DiscardChange | anda_bot/src/brain/mutation.rs:311-351 | A discard ends where the machine's discard does, and is refused exactly for a stored change that is neither prepared nor discarded. |
| Mutation.MutationService.CommitInner | anda_bot/src/brain/mutation.rs:406-508 | A commit, whichever of its branches it takes, ends where the machine's commit does; where it proceeds and is answered, the stored record says what the answer says, and what it returns is what is stored. |
| Mutation.MutationService.CommitRepair | anda_bot/src/brain/mutation.rs:552-653 | The repair path sends its revise only after the durable admission, stores exactly the outcome the reply says, and fails exactly when the preview is stale or Brain is not reached. |
| Mutation.MutationService.CommitErasure | anda_bot/src/brain/mutation.rs:658-726 | The erasure path persists `committing`, sends its forget and stores exactly the outcome the reply says, a legal hold as blocked. |
| Mutation.MutationService.RecoverOne | anda_bot/src/brain/mutation.rs:773-802 | Recovery resumes an admitted change, discards an expired preview, leaves a live preview and a final record alone, and says when to look again. |
| RecallBarrier.OneLockPerKey | anda_bot/src/brain/journal.rs:174-183 | Tasks that hold the weakly kept lock of one key hold the same lock, however the table is pruned between, and at most one of them is inside. |
| RecallTurns.LocksDiffer | anda_bot/src/brain/journal.rs:174-183 | In every run two tasks have one lock if and only if they are of one conversation. |
| RecallTurns.PrunesExactly | anda_bot/src/brain/journal.rs:174-183 | The table keeps a lock exactly as long as some task has it. |
| RecallBarrier.NoChangeIsLost | anda_bot/src/brain/memory.rs:447-466 | A kept session equals its saved changes applied one after another: no concurrent read-modify-write loses another's change, across crashes and failed saves. |
| RecallBarrier.OutstandingExactly | anda_bot/src/brain/memory.rs:447-466 | A receipt is outstanding exactly when it was recorded and not acknowledged since. |
| RecallBarrier.LeavesOnlyAfterRecall | anda_bot/src/brain/client.rs:547-585 | A receipt is acknowledged only by a turn that saw it settled first and whose recall then succeeded. |
| RecallBarrier.DividesCounts | anda_bot/src/brain/memory.rs:249-290 | What a barrier divides is, as a multiset, exactly its settled and its pending receipts. |
| RecallTurns.RecordTurn | anda_bot/src/brain/memory.rs:447-466 | A receipt that is recorded is outstanding after all those that were, and a failed save changes nothing. |
| RecallTurns.RecallTurn | anda_bot/src/brain/client.rs:547-585 | A turn that waits and recalls leaves outstanding exactly the receipts Brain had not settled; if its recall or its save fails, all stay outstanding. |
| RecallBarrier.MemoryBarrier | anda_bot/src/brain/memory.rs:249-290 | The wait ends within one poll and one read of each receipt past its deadline, however long reads take; each outstanding receipt is on exactly one side, settled ones because Brain was seen to be done with them, pending ones because a read that ended past the deadline still found them recorded. |
| RecallBarrier.Sessions.FormationLock | anda_bot/src/brain/journal.rs:174-183 | A lock in use is handed out again and kept through pruning; only a key without one gets a fresh lock. |
| RecallBarrier.Sessions.UpdateMemorySession | anda_bot/src/brain/memory.rs:447-466 | An update appends its change to the saved history exactly when it saves, and otherwise leaves the session as it was. |
| EntityPages.FollowingShowsEveryVisibleRowOnce | anda_bot/src/brain/entity.rs:320-446 | Over distinct rows, with any limits and scan budgets per request, following cursors ends, and shows every visible row exactly once in query order, if and only if no row is broken. |
| EntityPages.RepeatedRowIsShownTwice | anda_bot/src/brain/entity.rs:328-388 | A row repeated across two requests is shown by both: distinctness is needed. |
| EntityPages.StopMoves | anda_bot/src/brain/entity.rs:320-446 | Every request that succeeds with a cursor inspects at least one row, because a compacted record always fits the byte budget. |
| EntityPages.FailsAtBroken | anda_bot/src/brain/entity.rs:402-414 | A request fails only at a row whose projection fails. |
| EntityPages.PagesAreWithinLimits | anda_bot/src/brain/entity.rs:365-434 | A page holds at most its limit of claims and 262144 bytes, of at most its budget of rows, and stops only where one of these, the end or an unreadable row stops it. |
| EntityPages.PlaceInFlat | anda_bot/src/brain/entity.rs:119-127 | A cursor's query page and skip name one place in the list of all rows. |
| EntityPages.ScanPage | anda_bot/src/brain/entity.rs:370-434 | The inner loop over one query page keeps the running answer equal to the specification's, and stops where it says. |
| EntityPages.ScanFrom | anda_bot/src/brain/entity.rs:320-446 | A scan returns the claims, and the cursor strictly ahead of its own, that the specification gives for the place it started at, or the failure. |
| EntityPages.FollowCursors | anda_bot/src/brain/entity.rs:320-446 | A reader who passes each scan's cursor to the next, with any limits and budgets, comes to an end and has every visible row from its start once, in query order, and fails if and only if a row there is broken. |
| RecordPages.FollowingShowsEveryRecordOnce | anda_bot/src/brain/catalog.rs:56-115 | Whatever the limits and sizes, following the record list's cursors shows every visible record exactly once, newest first, if and only if no row fails. |
| RecordPages.StopMoves | anda_bot/src/brain/catalog.rs:83-101 | A request that starts at a row passes it, because no displayed record is too large for a page of its own. |
| RecordPages.PagesAreWithinLimits | anda_bot/src/brain/catalog.rs:79-101 | A page is of at most 262144 bytes and its limit of rows, and ends early only where a record does not fit or a row fails. |
| RecordPages.List | anda_bot/src/brain/catalog.rs:56-115 | A page holds the visible records up to where it stops, resumes exactly there although the bound it writes saturates, and is complete if and only if the size limit did not cut it short of its batch, the batch was whole, and every row it covers is shown and fully sourced. |
| RecordPages.CompactDisplay | anda_bot/src/brain/catalog.rs:256-276 | The measured record is the displayed one, and it is refused exactly when it is still over 131072 bytes. |
| RecordPages.DisplayKeepsIdentity | anda_bot/src/brain/catalog.rs:256-276 | A displayed record keeps its identity, labels and source references, loses only ends of quotes and marks them, never grows, and displaying it again changes nothing. |
| RecordPages.DisplayExactly | anda_bot/src/brain/catalog.rs:256-276 | A record of at most 131072 bytes is displayed whole, and of a larger one every quote of more than 256 characters is cut there and marked. |
| ActivityPages.OrderIsChronological | anda_bot/src/brain/activity.rs:318-321 | For one user, text order of the index keys is order by submission time, then by journal key, for every u64 time. |
| ActivityPages.RangeIsTheUsers | anda_bot/src/brain/activity.rs:620-645 | The text range a page reads holds exactly the rows of its user, for any user names without a slash. |
| ActivityPages.MatchesExactly | anda_bot/src/brain/activity.rs:600-660 | The rows a walk is to select are exactly those of the user, no later than its beginning and of the conversation asked for. |
| ActivityPages.Page | anda_bot/src/brain/activity.rs:632-671 | A page's early-stopped downward traversal holds the first `limit` matching rows below its cursor, newest first, and a next cursor at the last of them exactly when it is full. |
| ActivityPages.WalkDescends | anda_bot/src/brain/activity.rs:632-671 | However the index changes between pages, the walk goes strictly down: nothing of one order is selected twice. |
| ActivityPages.SelectedExactly | anda_bot/src/brain/activity.rs:414-440 | Whatever the index gains, loses or re-keys between pages, a row that is wanted throughout and only re-keyed upwards is selected once if it never overtakes the cursor between two pages, and never if it does. |
| ActivityPages.OvertakingRowIsMissed | anda_bot/src/brain/activity.rs:421-435 | A walk that ends without a row that was submitted again after the first page. |
| ActivityPages.WalkSelectsEachRowOnce | anda_bot/src/brain/activity.rs:591-671 | While the index only gains rows, following cursors comes to an end, and then has selected every matching row of its first page exactly once, newest first, whatever the limits. |
| ActivityPages.InsertKeepsOld | anda_bot/src/brain/activity.rs:436-438 | Adding a later row anywhere in the index changes nothing among the rows that were there when a walk began. |
| Text.PaddedOrder | anda_bot/src/brain/activity.rs:318-321 | Zero-padded decimals of one width compare as text the way their numbers do. |
| Text.DecimalRoundTrip | anda_bot/src/brain/memory.rs:128-131 | The unpadded decimal text of a number reads back as the number. |
| Sources.SourceResolver.Resolve | anda_bot/src/brain/activity.rs:175-188 | After any earlier calls of one request, failed ones included, the answer is the one a fresh resolver gives, be it an error of the index search, the journal read, the conversation read or the correction read. |
| Sources.SourceResolver.ResolveUncached | anda_bot/src/brain/activity.rs:189-316 | The four memo tables never change an answer: a miss reads the store and agrees with uncached resolution. |
| Sources.Project | anda_bot/src/brain/catalog.rs:150-246 | A projection through any warm resolver is the projection of uncached resolution, failures included. |
| Sources.ProjectionFailsExactly | anda_bot/src/brain/catalog.rs:150-180 | A projection fails if and only if the read of one of the first 32 sources fails. |
| Sources.QuotesExactly | anda_bot/src/brain/activity.rs:212-316 | A source resolves to a quotation if and only if the caller's one index row for it leads to a submission that vouches for it and to a message of the caller's own conversation that still has the vouched content digest; the quotation is at most the message's first 4096 characters, marked exactly when cut; it fails exactly when a read on that way does. |
| Sources.CorrectionExactly | anda_bot/src/brain/activity.rs:193-211 | A correction's source resolves to the caller's correction if there is one, and fails exactly when that read does. |
| Sources.ShownExactly | anda_bot/src/brain/catalog.rs:162-180 | A record is shown if and only if it is fully sourced, has no source at all and is the system's own, or is the caller's with no source that resolved. |
| Sources.ActionsExactly | anda_bot/src/brain/catalog.rs:191-222 | What may be done with a shown record, action by action. |
| Sources.FullySourcedExactly | anda_bot/src/brain/catalog.rs:150-180 | A record is shown as fully sourced if and only if its sources are complete, at most 32, and every one resolves for the caller. |
| Sources.NeverPartlySourced | anda_bot/src/brain/catalog.rs:150-180 | A record of which only some sources resolve is never shown. |
| Sources.ManySourcesHideTheRecord | anda_bot/src/brain/catalog.rs:150-180 | A record with more than 32 sources is hidden even when all of them resolve. |
| InboxSetup.OnlyTheAdmittedConfigIsReplaced | anda_bot/src/brain/setup.rs:152-186 | The host overwrites only the config it admitted, unless it was edited between the check and the write. |
| InboxSetup.ForeignConfigStopsTheApply | anda_bot/src/brain/setup.rs:152-171 | With a config that matches neither recorded digest, no sequence of commits, recoveries and deaths changes any file or record until an edit or a new preparation. |
| InboxSetup.AdmittedSetupStays | anda_bot/src/brain/setup.rs:58-198 | Without edits, and without a preparation by another caller unless the runtime file is there, an admitted setup is kept through any deaths, recoveries, commits and preparations, until it is installed and from then on. |
| InboxSetup.AnotherCallerReplacesTheApply | anda_bot/src/brain/setup.rs:58-128 | A run in which an admitted setup is lost so, and recovery has nothing to resume. |
| InboxSetup.EditDuringApplyIsLost | anda_bot/src/brain/setup.rs:152-186 | A run in which an edit between the check and the write is overwritten: the exception above is needed. |
| InboxSetup.NamedFileExists | anda_bot/src/brain/setup.rs:152-186 | In every state of every run without edits, the config names the runtime file only if that file exists with the admitted bytes. |
| InboxSetup.RecoveryCompletes | anda_bot/src/brain/setup.rs:152-198 | From any crash inside an apply, one recovery ends with the updated config, the exact runtime file, the original bytes in the backup and state `restart_required`. |
| SetupTurns.PrepareExactly | anda_bot/src/brain/setup.rs:58-128 | A preparation answers with the caller's own setup under way or in place, shows a new one for a readable config that names no runtime where no other's file is, and is refused otherwise. |
| SetupTurns.ApplyExactly | anda_bot/src/brain/setup.rs:152-186 | In every reachable state an uninterrupted apply puts the config, the runtime file, the backup and the restart request in place if the config is the one shown or already replaced, and otherwise changes nothing. |
| InboxSetup.InboxSetupService.PrepareSetup | anda_bot/src/brain/setup.rs:58-128 | Preparing answers with the stored setup where one is under way or installed, else stores the preview the specification gives for the config it reads, or refuses; it writes no other file. |
| InboxSetup.InboxSetupService.CommitSetup | anda_bot/src/brain/setup.rs:130-150 | A commit ends where the machine's apply does. |
| InboxSetup.InboxSetupService.ApplyRecord | anda_bot/src/brain/setup.rs:152-186 | An uninterrupted apply ends where the machine lets a running apply end. |
| InboxSetup.InboxSetupService.RecoverSetup | anda_bot/src/brain/setup.rs:188-198 | A recovery ends where the machine's recovery of an admitted setup ends. |
| InboxSetup.InboxSetupService.CreateBackup | anda_bot/src/brain/setup.rs:267-297 | The exact create of the backup lets the apply go on exactly where the machine does, with the bytes in place, and otherwise ends it. |
| Outbox.OneReplyUntilAcknowledged | anda_bot/src/brain/outbox.rs:15-73 | Across any number of terminals, lost acknowledgements and deaths, every send up to and including the first acknowledged one carries one event key and one text. |
| Outbox.SavedWhileSending | anda_bot/src/brain/outbox.rs:43-73 | Until then, whatever is about to be sent is still in the pending file. |
| Outbox.SlowRemovalDropsAReply | anda_bot/src/brain/outbox.rs:66-73 | A run in which, after the acknowledgement, a slow removal drops another terminal's saved reply. |
| Outbox.OversizedReplyStays | anda_bot/src/brain/outbox.rs:43-65 | A saved reply whose file is over the limit stays in place, and nothing is sent, whatever any terminals do. |
| Outbox.SavedIsSentExactly | anda_bot/src/brain/outbox.rs:43-73 | A saved reply that no terminal is sending or removing can still be sent if and only if its file is within the limit. |
| Outbox.OversizedReplyIsSaved | anda_bot/src/brain/outbox.rs:21-49 | A run in which an acceptable text is saved in a file over the limit. |
| ReplyTurns.StepExactly | anda_bot/src/brain/outbox.rs:43-73 | What one step of a terminal does: its reply is saved only where none is, what is saved is sent if it is readable and of the same text, and the file goes once that is acknowledged. |
| ReplyTurns.AloneSends | anda_bot/src/brain/outbox.rs:15-73 | A reply that nobody interrupts sends its own text under its own key and stays saved exactly until it is acknowledged. |
| Outbox.PendingFile.Reply | anda_bot/src/brain/outbox.rs:15-73 | A reply sends the saved pending reply if its file is within the limit and its text is the same, refuses it otherwise, and removes the file exactly when acknowledged. |
| Outbox.PendingFile.Retry | anda_bot/src/brain/outbox.rs:100-119 | A retry sends the saved event key and text again, and nothing when nothing is saved. |
| TaskRuns.FieldsAgree | anda_bot/src/mib.rs:165-184 | Between requests of a live run the transient list is empty exactly when no task is active, a pending tool is set exactly when the last step is an unanswered call to a registered tool, memory implies a task, and the list fits its cap. |
| TaskRuns.StepsTakeTurns | anda_bot/src/mib.rs:680-905 | In every run, live or ended, each step of a task is a call to one of its tools, the result of the call just before it, or the reply that ends it. |
| TaskRuns.FormedExactlyOnce | anda_bot/src/mib.rs:948-973 | In persistent mode what Brain was handed is exactly the ended tasks, whole, once each and in order; without memory it is nothing; no boundary falls on an unanswered call. |
| TaskRuns.EndedTasksStay | anda_bot/src/mib.rs:948-973 | Later requests never change an ended task or what was handed over, only add to it, and an ended run stays ended. |
| TaskRuns.MemoryIsFresh | anda_bot/src/mib.rs:862-883 | Whenever the model is asked to act, the memory it sees was recalled after everything Brain had been handed by then. |
| TaskRuns.ObservationsCountOnce | anda_bot/src/mib.rs:702-761 | An observation identifier has an effect at most once in a run. |
| TaskOutcomes.ObserveExactly | anda_bot/src/mib.rs:702-761 | In every live run an observation is accepted if and only if it comes in time, has an identifier, and repeats what was seen under it, is the result of exactly the pending call and tool, or is Brain's to form; and what each leaves. |
| TaskOutcomes.ContinueExactly | anda_bot/src/mib.rs:834-902 | A continuation succeeds if and only if it is of the active task, no call is pending, and the model's answer is one call by the alias of one of its tools or a reply that fits; the call is of that tool under this request's identifier. |
| TaskOutcomes.BeginExactly | anda_bot/src/mib.rs:834-902 | A new task succeeds if and only if its tools are acceptable, no call is pending and its first step is allowed; the task before it is ended and handed over first. |
| TaskOutcomes.BoundaryExactly | anda_bot/src/mib.rs:762-830 | Maintenance, a session boundary and a response succeed if and only if no call is pending, what must be handed over is, and their own call succeeds; the task is then closed and handed over whole. |
| TaskOutcomes.OthersExactly | anda_bot/src/mib.rs:680-831 | Audits, resets and retrievals change nothing but the time and fail exactly as stated. |
| TaskRuns.TaskTools | anda_bot/src/mib.rs:1132-1164 | The tool registry is refused exactly for a missing, oversized, unnamed, repeated or schemaless list, and otherwise answers every alias text as the frozen list does. |
| TaskRuns.AliasNamesTool | anda_bot/src/mib.rs:1129-1164 | Each tool is reached by its own index alias: the aliases are collision-free. |
| TaskRuns.Run.Operate | anda_bot/src/mib.rs:680-905 | One request leaves the run's fields exactly as the story it continues reads, on success and on failure at any await. |
| TaskRuns.Run.FinishTaskBoundary | anda_bot/src/mib.rs:948-973 | A boundary is refused over an unanswered call, hands a persistent task over before clearing it, and keeps the fields when the handing over fails. |
| TaskRuns.Run.ObserveOne | anda_bot/src/mib.rs:702-761 | An observation is taken as a result only for the pending call, a repeated one is accepted without effect or refused if it differs, and any other is formed. |
| TaskRuns.Run.ActOn | anda_bot/src/mib.rs:834-902 | A continuation needs its own task without a pending call; a new task ends the previous one only after its tools were accepted. |
| RequestLedger.ExecutesAtMostOnce | anda_bot/src/mib.rs:457-523 | In every interleaving a protocol, run and request identifier executes its work at most once. |
| RequestLedger.RepliesAgree | anda_bot/src/mib.rs:457-523 | Copies of one request get one reply, up to costs; the sole exception is a refusal at a full ledger whose identifier a close took since. |
| FullLedger.AfterHostFullExactly | anda_bot/src/mib.rs:472-499 | After a refusal at a full ledger the identifier is either free or taken by a close, and a further copy is a conflict if and only if it is taken, else refused again. |
| FullLedger.CloseTakesTheIdentifier | anda_bot/src/mib.rs:472-499 | For every admissible request but a close there is a run in which it is turned away at a full ledger and later is a conflict. |
| RequestLedger.OtherContentConflicts | anda_bot/src/mib.rs:472-499 | Once an identifier is bound, different content under it is always a conflict. |
| RequestLedger.EndedIsForever | anda_bot/src/mib.rs:537-596 | After a run failed, timed out, was exhausted, closed, reaped or recovered from a panic, no later request operates on it. |
| RequestLedger.ResetSucceedsOnce | anda_bot/src/mib.rs:560-590 | A reset succeeds on a run only if nothing was served on it before. |
| RequestLedger.OneAtATime | anda_bot/src/mib.rs:552-596 | At most one request at a time works on a run. |
| RequestLedger.RunsAreFew | anda_bot/src/mib.rs:598-637 | At most 1024 runs are ever recorded, and at most eight that a reset opened are open at once. |
| RequestOutcomes.RunsAreOpenedByResetOrClose | anda_bot/src/mib.rs:598-637 | In every interleaving a run is there only if a reset or a close of a fresh run with a valid envelope was bound for it. |
| RequestOutcomes.ArriveExactly | anda_bot/src/mib.rs:457-499 | What a request that arrives gets at once, or the entry it waits at. |
| RequestOutcomes.LookingExactly | anda_bot/src/mib.rs:598-678 | In every interleaving a request finds its run, opens it where it may, or is refused. |
| RequestOutcomes.HoldingExactly | anda_bot/src/mib.rs:552-596 | Under the lock a request operates exactly on a run that is neither spent nor ended, and a reset only on one that served nothing; any other turn ends as stated. |
| RequestOutcomes.OperatingExactly | anda_bot/src/mib.rs:552-596 | An operation that failed, or whose run was ended meanwhile, fails and ends the run; another is answered and counted. |
| RequestOutcomes.RecoveringExactly | anda_bot/src/mib.rs:525-535 | Recovering from a panic ends the run and answers the request. |
| RequestLedger.PanicLetsOneThrough | anda_bot/src/mib.rs:525-535 | A run in which a queued request operates on a run between its holder's panic and the end of the run. |
| RequestLedger.Host.Dispatch | anda_bot/src/mib.rs:457-523 | One uninterrupted request gets the reply its envelope, its entry or its run calls for: an operation on a run nobody opened is refused and opens none, a spent run is exhausted, an ended one fails; the runs change exactly so and nothing stays in flight. |
| RequestLedger.Host.AdmitRequest | anda_bot/src/mib.rs:457-499 | The ledger step answers at once exactly what the machine answers at once, and otherwise leaves an entry to wait for. |
| RequestLedger.Host.RunFor | anda_bot/src/mib.rs:598-678 | A run is found if it is known, and opened if and only if a reset or close of a fresh run comes within the limits; otherwise the request is refused and the runs stay. |
| RequestLedger.Host.SettleRun | anda_bot/src/mib.rs:573-596 | The end of a request counts it and its bytes, cancels the run if it failed, lets go of the lock and delivers the response. |
| Admission.CountsPermits | anda_bot/src/runtime_admission.rs:41-54 | The active count equals the number of live permits. |
| Admission.SucceedsByHistory | anda_bot/src/runtime_admission.rs:41-110 | An entry or a begin succeeds if and only if the history of successes leaves no holder, a renewal or release if and only if it leaves that token. |
| Admission.NothingEntersUnderLease | anda_bot/src/runtime_admission.rs:46-90 | Nothing enters between a begin or renewal and the earlier of a release or 90 seconds after the last of them. |
| Admission.SuccessesAreChained | anda_bot/src/runtime_admission.rs:78-101 | A renewal or release follows, within 90 seconds and with only entries between, a begin or renewal of the same token. |
| Admission.ReleasedIsGone | anda_bot/src/runtime_admission.rs:84-101 | A released token never succeeds again at anything. |
| Admission.ExpiredIsGone | anda_bot/src/runtime_admission.rs:56-101 | A token that let 90 seconds pass since its last success never succeeds again. |
| Admission.WorkDrains | anda_bot/src/runtime_admission.rs:41-54 | Until the deadline of a lease the live permits only shrink, unless existing work is continued. |
| Admission.WorkDrainsWhileHeld | anda_bot/src/runtime_admission.rs:41-101 | As long as the history leaves a holder, through any renewals, the live permits only shrink, unless existing work is continued. |
| Admission.PermitsExactly | anda_bot/src/runtime_admission.rs:38-54 | Continued work is always let in, new work if and only if nobody holds the lease, and a dropped permit is gone; permits change nothing else. |
| Admission.Gate.EnterGate | anda_bot/src/runtime_admission.rs:46-54 | Entering succeeds exactly when the history leaves no holder, and then adds this permit. |
| Admission.Gate.BeginLease | anda_bot/src/runtime_admission.rs:66-75 | Beginning succeeds exactly when the history leaves no holder, and then leaves this token. |
| Admission.Gate.RenewLease | anda_bot/src/runtime_admission.rs:77-82 | Renewing succeeds exactly for the holder and restarts its 90 seconds. |
| Admission.Gate.ReleaseLease | anda_bot/src/runtime_admission.rs:84-90 | Releasing succeeds exactly for the holder. |
| Admission.Gate.DropPermit | anda_bot/src/runtime_admission.rs:113-117 | Dropping a live permit takes it, and only it, from the count, which is never zero then. |
| AgentGrants.MemoryIsSaved | anda_bot/src/brain/agents.rs:341-352 | After every operation, failed saves included, the registry in memory is the saved one. |
| AgentGrants.AtMost32Active | anda_bot/src/brain/agents.rs:216-268 | At no time from the last operation on are more than 32 grants active. |
| AgentGrants.ForgettingIsInvisible | anda_bot/src/brain/agents.rs:84-111 | Every token verifies, now and at every later time, exactly as it would if no grant had ever been pruned. |
| AgentGrants.RevokedNeverVerifies | anda_bot/src/brain/agents.rs:270-298 | A token whose revocation was reported never verifies again, after any operations, prunings and reloads. |
| AgentGrants.RevocationIsComplete | anda_bot/src/brain/agents.rs:270-298 | A saved revocation reaches every token of the grant or client it names, even a forgotten one. |
| GrantEffects.VerifiesExactly | anda_bot/src/brain/agents.rs:300-327 | A token names a grant if and only if that was ever issued under it, is not revoked and has not expired. |
| GrantEffects.CreateExactly | anda_bot/src/brain/agents.rs:216-268 | A creation that is saved, with fewer than 32 grants in force, adds its grant and drops exactly those retired for thirty days; any other changes nothing. |
| GrantEffects.RevokeExactly | anda_bot/src/brain/agents.rs:270-298 | A revocation that is saved revokes now exactly the grants not revoked yet whose id or client it names. |
| GrantEffects.VerifyExactly | anda_bot/src/brain/agents.rs:300-327 | A verification notes the use of the one grant it finds, at most hourly, and touches no other. |
| AgentGrants.Registry.CreateGrant | anda_bot/src/brain/agents.rs:216-268 | A grant is issued exactly for an acceptable request with room for it that is saved, and its token then verifies; otherwise nothing changes. |
| AgentGrants.Registry.RevokeGrants | anda_bot/src/brain/agents.rs:270-298 | A revocation succeeds exactly when something matched and was saved, and then nothing is left to match. |
| AgentGrants.Registry.VerifyToken | anda_bot/src/brain/agents.rs:300-327 | A token verifies as in the full history; a failed save of its last use changes nothing else. |
| ServiceWorker.SettledOnceByItsOwn | chrome-extension/src/service_worker.ts:611-640 | An RPC is waiting on the current socket with its timer running, or was settled exactly once: by a response on its own socket, its timer, its failed send or the end of its socket. |
| ServiceWorker.ReplacedSocketIsSilent | chrome-extension/src/service_worker.ts:725-749 | No open, message or close of a socket that was replaced changes anything. |
| ServiceWorker.NobodyWaitsForever | chrome-extension/src/service_worker.ts:642-723 | A caller waiting for a connection waits on the current, still connecting socket whose timeout is set, and that timeout lets it go. |
| ServiceWorker.DelaysDouble | chrome-extension/src/service_worker.ts:751-767 | The reconnect timer is armed only while none is, and the n-th time since the last connection with min(30000, 3000 * 2^n). |
| ServiceWorker.TimerIsForCurrentSettings | chrome-extension/src/service_worker.ts:751-767 | An armed timer is for the current connection settings. |
| ServiceWorker.ActionsStartOnTheirSocket | chrome-extension/src/service_worker.ts:832-841 | Every browser action that was started was started while the socket that asked for it was the current one. |
| ServiceWorker.ActionsStartInOrder | chrome-extension/src/service_worker.ts:832-841 | Browser actions start in arrival order, each at most once. |
| SocketTurns.EnsureExactly | chrome-extension/src/service_worker.ts:642-723 | A connection is made anew if and only if the settings are the current ones, with a token, and there is none to use or wait for; what was going on is given up first. |
| SocketTurns.ClosedExactly | chrome-extension/src/service_worker.ts:707-719 | When the current socket closes all that waited is settled and a reconnect scheduled with its own settings. |
| SocketTurns.ReceivedExactly | chrome-extension/src/service_worker.ts:793-824 | A response on the current socket settles exactly the RPC it is for, and a browser action joins the queue. |
| SocketTurns.SendExactly | chrome-extension/src/service_worker.ts:617-640 | An RPC is sent exactly on an open socket, under the next identifier, and waits with its timer unless the send fails. |
| SocketTurns.SettingsExactly | chrome-extension/src/service_worker.ts:725-749 | Settings for another connection, or without a token, give up what is going on. |
| SocketTurns.ScheduleExactly | chrome-extension/src/service_worker.ts:751-767 | A reconnect is scheduled if and only if the settings are still current, have a token and no timer is armed. |
| SocketTurns.DelaysExactly | chrome-extension/src/service_worker.ts:751-767 | The delays are 3, 6, 12, 24 and then always 30 seconds. |
| ServiceWorker.Worker.CloseTheSocket | chrome-extension/src/service_worker.ts:725-749 | Closing detaches the socket, disarms the timer and settles every caller and RPC that waited on it. |
| ServiceWorker.Worker.Connect | chrome-extension/src/service_worker.ts:642-667 | A connection is kept, awaited, refused or reopened as the machine does, and refused exactly without a token or for other settings. |
| ServiceWorker.Worker.RejectPending | chrome-extension/src/service_worker.ts:785-791 | Every pending RPC is settled once and its timer cleared, and no other RPC is touched. |
| ServiceWorker.Worker.HandleClose | chrome-extension/src/service_worker.ts:707-719 | A close of the current socket settles what waited on it and schedules a reconnect with the settings it was opened with. |
| ServiceWorker.Worker.HandleMessage | chrome-extension/src/service_worker.ts:793-824 | Only the current socket's messages settle an RPC or queue an action. |
| ServiceWorker.Worker.SendRequest | chrome-extension/src/service_worker.ts:617-640 | An RPC is registered exactly when the socket is open, and a failed send settles it at once. |
| ServiceWorker.Worker.RunNext | chrome-extension/src/service_worker.ts:832-841 | The next queued action runs only if its socket is still the current one, and is dropped otherwise. |
| XPath.PathSelectsItsElement | chrome-extension/src/page_element_content.ts:94-110 | In any tree and for any lowercasing, the printed steps select exactly their element if and only if no earlier sibling on the way differs from it in the case of its tag only. |
| XPath.CaseOnlySiblingsMisread | chrome-extension/src/page_element_content.ts:96-107 | A tree in which the path of the second of two siblings selects the first. |
| XPath.PathRoundTrip | chrome-extension/src/page_element_content.ts:106-109 | The text of a path reads back as its steps. |
| XPath.DistinctElementsDiffer | chrome-extension/src/page_element_content.ts:94-110 | Two elements of a tree print different paths, when no earlier sibling on the way to either differs in the case of its tag only and no tag name on the way has a slash or a bracket. |
| XPath.LiteralMeansItsString | chrome-extension/src/page_element_content.ts:137-145 | For every string, the expression printed for it has that string as its value under sections 3.7 and 4.2 of XPath 1.0. |
| XPath.ElementXPath | chrome-extension/src/page_element_content.ts:89-110 | The printed path is that of the element's steps, or, for an element with an id, one that selects exactly the elements with that id. |
| Releases.NewerIsStrictWeakOrder | anda_bot/src/auto_update.rs:237-268 | On tags that parse, newer is irreflexive, asymmetric and transitive, and tags tie exactly when they parse alike. |
| Releases.OneSidedExactly | anda_bot/src/auto_update.rs:237-249 | Two tags are not each newer than the other if and only if they are one tag or both parse. |
| Releases.FinalAbovePrerelease | anda_bot/src/auto_update.rs:251-268 | A final release is newer than each of its prereleases and never the other way round. |
| Releases.PrereleasesTie | anda_bot/src/auto_update.rs:251-268 | Neither of two prereleases of one release is newer. |
| Releases.NumbersDecide | anda_bot/src/auto_update.rs:251-268 | For the tags of final releases newer is the lexicographic order of their numbers, not of their text. |
| AutoUpdate.OfferedWasHashed | anda_bot/src/auto_update.rs:82-155 | Over any checks, deaths and outside changes, a state that offers a download is saved right after that file was found to have the recorded hash. |
| AutoUpdate.OfferedIsUsable | anda_bot/src/auto_update.rs:82-155 | While only checks and deaths touch the downloads, a saved offer is of a newer release whose file is there with the recorded hash. |
| AutoUpdate.FailingKeepsTheDownload | anda_bot/src/auto_update.rs:139-155 | However many checks fail or die before they learn the latest tag, a usable download stays usable on disk and in the saved state, which never turns to failed. |
| AutoUpdate.FailedCheckOffersIt | anda_bot/src/auto_update.rs:139-155 | A check that fails so and is recorded ends by offering the download again. |
| UpdateChecks.DueExactly | anda_bot/src/auto_update.rs:225-237 | A check is due after an interrupted one, an hour after a failed one and a day after any other. |
| UpdateChecks.NothingNewer | anda_bot/src/auto_update.rs:90-101 | Without a newer release a check removes the downloads and records that. |
| UpdateChecks.OffersWhatIsThere | anda_bot/src/auto_update.rs:103-137 | A newer release whose file is there with its hash is offered again without a download. |
| UpdateChecks.DownloadsRelease | anda_bot/src/auto_update.rs:103-137 | Any other newer release is downloaded if its checksum matches, is then the only file, and is offered with its hash. |
| UpdateChecks.FailsExactly | anda_bot/src/auto_update.rs:82-137 | What makes a check fail at each step, and that it changed no file or record then. |
| UpdateChecks.RecordsFailure | anda_bot/src/auto_update.rs:139-155 | A failure is recorded as an offer if and only if the download on record is usable, and touches no file. |
| AutoUpdate.AutoUpdater.CheckForUpdate | anda_bot/src/auto_update.rs:69-155 | A due check ends with no newer release and nothing kept, with a usable download, or with a recorded failure and no usable one; one that is not due changes nothing. |
| AutoUpdate.AutoUpdater.RecordFailureOf | anda_bot/src/auto_update.rs:139-155 | A failure is recorded as an offer exactly when the download on record is usable, and keeps what is on record. |

## Left out

- HTTP, WebSocket frames, file-system error kinds, processes, signals and keyrings: only their atomic effects are modelled.
- Brain, Nexus, KIP, AndaDB and the model calls: parameters of the steps, with the interface stated above.
- Cryptography, token generation and digests: injective or fresh by assumption, with no security claim.
- Legacy rows and states: rows without provenance, receipt or order key, and `cleanup_pending`.
- Error texts, `updated_at` and other display fields, and log output.
- Formation.AttemptsNeverFall: attempts are unbounded; the wrap of a u32 attempt is not modelled.
- Formation: the receipt an observation leaves in the kept session is modelled in `RecallBarrier` only, and `RecallTurn` not at all.
- Mutation: a native change is its state and the text it quotes; the in-memory set of admitted changes and its capacity of eight, and the validations of `prepare`.
- EntityPages: how a row is classified (visible, broken) is data, and its shortening is in `RecordPages`; `search`, `beliefs` and the page header are not modelled.
- ActivityPages.SelectedExactly: a row that is re-keyed downwards, as only a clock set back would, is not treated.
- ActivityPages: reconciling the index with the journal is covered by `Polling` only as far as no change is lost.
- Sources.SourceResolver.ResolveUncached: computing the digest of a stored message does not fail.
- Sources.Project: the fields of a record that do not bear on its visibility are not modelled.
- RecordPages.List: the native batch below a cursor is assumed newest first, with its own cursor at its last row; whether it is whole is given by the batch.
- InboxSetup: `reject_override`, and the content of the two configuration files beyond what is read back.
- Outbox: the page rendering and the path of the pending file.
- TaskRuns.Run.Operate: JSON shapes, costs and the texts sent to Brain and the model are not modelled; an answer that fails, times out or is cancelled is one failed answer.
- RequestLedger.RepliesAgree: costs, response bytes of replies and HTTP waiters are not modelled; the reasons a run is refused are one `Refused`.
- RequestLedger: closing Brain is one step with its cancellation; `touched` and the idle cutoff are left open, so a run may be reaped at any time.
- Admission: which transports use which entry.
- AgentGrants.Registry.CreateGrant: the client and name rules are one flag; notebooks, notes and their replay keys are not modelled.
- ServiceWorker.Worker.HandleMessage: JSON parsing, keep-alive pings, registration payloads, status texts and the answers of browser actions are not modelled.
- XPath.ElementXPath: namespaces and CSS paths are not modelled; a path by id is read as selecting by the attribute's value.
- Releases.NewerIsStrictWeakOrder: white space is blank, tab, carriage return and line feed, not all that Unicode counts as such; so too in `Outbox`.
- AutoUpdate: download times and targets, the sanitizing of tags in paths, partial files, and the race of `mark_installed` with a check inside its own read and save; installing is not modelled.
- RecallBarrier: the attention cursor is not modelled.
- `daemon.rs`, `config.rs`, `tts.rs`, `transcription.rs`, `provider_env.rs`, `logger.rs`, `cli/*` and the routers: tables, validation and plumbing that would add only easy members.
