# The durable mutation outbox and its session reconciler, verified

The Hermes provider for Sibyl memory never writes to its server directly. Every capture, manual note,
exposure report and correction is first a row of a durable outbox; workers claim rows under leases,
execute them against the server, and archive them. A session reconciler compares the transcript with
the index of captured turns, back-fills what is missing and enqueues corrections for what was rewound.
This project models that machinery and proves what holds of it in every run.

## How it is laid out

| file | contents |
|---|---|
| `Wrappers.dfy`, `Ordering.dfy`, `Requests.dfy` | results and exceptions; the replay order and its SELECT; request bodies and text tests |
| `Outbox.dfy` | the four tables as values, one function per SQLite transaction, and runs of transactions |
| `OutboxInvariant.dfy` | the invariant every transaction keeps, and how the tables before and after a run are related |
| `OutboxRuns.dfy` | conservation, supersession chains, lease fencing, dependencies, session sequences |
| `OutboxContracts.dfy` | what callers rely on, column by column: who is claimed, until when, and what is read back |
| `Flush.dfy`, `FlushTheorems.dfy`, `FlushOrder.dfy` | the flush loop as a machine: termination, what it leaves, its order, its least fixpoint |
| `DurableOutbox.dfy` | the outbox as a class whose methods update the tables in place, each tied to its transaction |
| `Sessions.dfy` | the turn-start queue and the planning of rewind corrections |
| `Capture.dfy` | committed turns, turn identities, percent-encoding, correction endpoints |
| `Reconcile.dfy` | the reconciler: the multiset law |
| `Rerun.dfy`, `ReconcileAgain.dfy` | reconciling again, also when the transcript has gone on: exactly when it returns and adds nothing; a run in which it raises, and one in which it corrects a live turn |
| `Executor.dfy` | the executor: what is sent, how failures are classified, what an answer becomes |
| `Answers.dfy` | each answer of the server spelled out, and where it leads: to unblock_auth, or to a preview and a replacement at the current revision |
| `Runtime.dfy`, `RuntimeFlush.dfy` | the runtime as a class; the flush loop driven by the runtime's own executor |
| `Delivery.dfy`, `DeliveryInvariant.dfy`, `DeliverySteps.dfy`, `DeliveryTheorems.dfy` | host, workers, network and server as one state machine: exactly-once effects and guarded corrections |
| `FlushDelivery.dfy`, `FlushDrains.dfy` | the runtime's flush as a schedule of that machine, among the host's transactions; when one flush delivers everything |
| `SyncDelivery.dfy` | sync_turn as a schedule of that machine; the multiset law as the server sees it once everything is delivered |

## What the model takes as given

- One SQLite transaction is one atomic step; a transaction that raises restores the tables.
- Timestamps are microseconds of a clock that never runs backwards and is read inside the step.
- A claim token is never issued twice. SHA-256 is a parameter assumed injective with non-empty
  lower-case hexadecimal output wherever that matters (`Capture.IdealExists`: such a function exists);
  equal request hashes mean equal requests.
- A string holds one character per UTF-8 byte, so character order is the byte order of the database.
- The executor, the other workers, the turn factory, the deadline and the server are parameters:
  every answer and every interleaving they can produce is covered.
- The server serves a key once, and a receipt for the key that was asked says that it was served, and
  for a capture with which revision (`Delivery.Authentic`). A receipt for another key may say anything.
  Requests may be delayed, repeated and lost.

## Three results that are not what a first reading promises

- Reconciling again on the same transcript can raise. A turn rewound while still queued gets a
  correction without a revision that depends on its capture; once the capture is delivered, the next
  reconciliation builds another request under the same id and `enqueue` conflicts. The run through
  two calls of sync_turn is `ReconcileAgain.DeliveredTurnConflicts`.
- Reconciling again can correct a live turn. Between two reconciliations sync_turn captures the current
  turn. If its hash was then indexed as often as the transcript has it, as when a rewound turn is sent
  again in the same words, the new capture is the one too many, and the next reconciliation enqueues
  its correction. The run is `ReconcileAgain.ResentTurnCorrected`. `Rerun.RerunAfter` says for every run
  of transactions in between that indexes no turn by hand exactly when the second reconciliation
  returns and exactly when it adds an operation, `Rerun.LaterIff` says it for a transcript that has
  gone on, and `Runtime.ResyncIff` for two calls of sync_turn. On the same transcript it never adds an
  index row.
- The turn hash joins user and assistant text with a NUL. No other turn has a turn's hash if and only
  if neither of its texts contains a NUL (`Capture.TurnHashUniqueIff`).

## Model

| member | source | states |
|---|---|---|
| Ordering.SelectExact | outbox.py:859-860 | the claiming SELECT returns members only, in (created_at, operation_id) order, the earliest ones, and as many as fit the page |
| OutboxInvariant.CandidatesExact | outbox.py:845-863 | the selected ids are distinct, all claimable, in replay order, before every claimable row left out, and exhaust them when the page is not full |
| OutboxInvariant.ClaimPageExact | outbox.py:822-887 | the selected rows get consecutive new tokens, the lease and one attempt more; nothing else changes; one claim per row, saying what the row says |
| OutboxInvariant.WellFoundedGrows | outbox.py:986-1022 | a relation between history entries stays acyclic when an entry is added that points outside, or that nothing points to |
| OutboxInvariant.StepKeeps | outbox.py:448-1235 | every transaction keeps the invariant, and relates the tables before it to those after it |
| OutboxInvariant.RunKeeps | outbox.py:448-1235 | so does every list of transactions of any workers in any order |
| OutboxInvariant.ReachableInv | outbox.py:334-407 | every database reachable from an empty one satisfies the invariant |
| OutboxInvariant.RowUntouched | outbox.py:864-885 | only a claim, a release, an unblock or a call of the current holder rewrites an existing row |
| OutboxRuns.AcceptedForEver | outbox.py:453-493 | an accepted id is for ever in exactly one table with its identity; the same mutation is a no-op again, another one conflicts |
| OutboxRuns.SettledForEver | outbox.py:995-1022 | history entries and dead letters never change |
| OutboxRuns.EndsAreFinal | outbox.py:845-863 | buried operations are never ready again; obsolete and superseded ones never meet a dependency |
| OutboxRuns.UnblockExact | outbox.py:1103-1113 | exactly the blocked rows become pending, and their number is returned |
| OutboxRuns.PopulationCounts | outbox.py:1024-1101 | live rows plus history that was not superseded number the accepted enqueues, over every run |
| OutboxRuns.EveryChainEnds | outbox.py:1024-1101 | following replacements from any accepted operation reaches a live or finally archived record |
| OutboxRuns.ChainEndUnique | outbox.py:1024-1101 | and only one |
| OutboxRuns.ChainsDisjoint | outbox.py:1060-1101 | two chains from roots that end at one record are the same chain |
| OutboxRuns.EveryRecordHasRoot | outbox.py:1060-1101 | every record descends from an operation that replaced nothing |
| OutboxRuns.RootForEver | outbox.py:1052-1059 | an operation accepted by an enqueue is never named as a replacement |
| OutboxRuns.DeadForEver | outbox.py:920-976 | a token off its row never comes back; renewing, applying, superseding and releasing with it change nothing |
| OutboxRuns.CompletesOnce | outbox.py:939-1022 | a completing call takes effect only for the holder, and ends its own token |
| OutboxRuns.HoldStep | outbox.py:864-885 | in one step a held operation leaves its holder only by the holder's own act or by a claim that finds the lease over; only the holder moves the lease |
| OutboxRuns.LeaseFenced | outbox.py:864-937 | over a run: if the holder lost the operation, it gave it up, or a claim found its lease, as renewed so far, at its end |
| OutboxRuns.ClaimedAreReady | outbox.py:851-858 | whatever is claimed has its dependency archived as a success |
| OutboxRuns.CyclesAreAccepted | outbox.py:792-793 | two valid operations that depend on each other are both accepted, and then wait for one another |
| OutboxRuns.DeadlockedNeverClaimed | outbox.py:792-793 | rows that wait for one another are never claimed and never archived, in any run |
| OutboxRuns.HistoryIsWellFounded | outbox.py:851-858 | every archived operation's dependency succeeded, and no set of entries waits only for itself |
| OutboxRuns.SequencesIncrease | outbox.py:497-633 | sequence numbers handed out in a session strictly increase over every run and never hit an indexed slot |
| OutboxRuns.SnapshotCountsRows | outbox.py:1115-1159 | a snapshot counts every live row once: in total, by state with empty states left out, as waiting for a dependency or not, and if claimed as active or expired; nothing that waits is ready |
| OutboxContracts.ClaimsExactlyDue | outbox.py:822-887 | the rows claimed are pending, up for recovery or up for revision, untouched since the cutoff, without a live lease and with their dependency archived as a success; all such rows are claimed if the page is not full; a claim says what its row said with one attempt more; nobody finds the row due afterwards |
| OutboxContracts.RenewedUntil | outbox.py:920-937 | a renewal keeps others away until the time it returns, and not longer |
| OutboxContracts.SessionsSettled | outbox.py:497-530 | a new session starts at number 1 and asks to be reconciled; a named parent wins and an unnamed one changes nothing; a reservation hands out the next number; only marking sets the flag |
| OutboxContracts.IndexedByHand | outbox.py:635-687 | an exact repeat is recognised, another turn at the number conflicts, ids in use elsewhere violate the constraints, a refusal changes nothing, and the next number never falls behind |
| OutboxContracts.IndexListsTurns | outbox.py:716-757 | the index lists each turn of a session once, by number, queued exactly while its operation is |
| OutboxContracts.RevisionReadBack | outbox.py:759-776 | a recorded revision is read back for its operation, and no other operation's changes |
| Flush.PageClaims | outbox.py:1190-1196 | a page a flush claims consists of rows untouched since it started, which are touched from then on |
| Flush.FlushStepDescends | outbox.py:1185-1207 | every step of a flush lowers its measure: the untouched rows, then the page |
| Flush.RunFlush | outbox.py:1169-1217 | flush terminates, whatever the executor and other workers add meanwhile, and its end is reached by transactions only |
| FlushTheorems.AttemptedAtMostOnce | outbox.py:1185-1207 | a flush attempts each operation at most once and releases none that it attempted |
| FlushTheorems.ReturnLeavesNoClaim | outbox.py:1196-1235 | a flush that returns leaves no claim of its own; outcome counts add up to executor calls; and each row it released at the deadline, and still held in the store that release found, is as it was there but for its attempt taken back, its claim and its time of update |
| FlushTheorems.ReleaseGivesBack | outbox.py:1219-1235 | releasing a list of claims gives each still held row back its attempt and ends its token, whatever else the list releases |
| FlushTheorems.ReportTellsAnswers | outbox.py:1196-1217 | the report counts, per action, the executor calls that asked for it, a raising one counting as a retry; and each operation whose answer was applied is for good where the answer puts it: archived with its status as success or obsolete, or a dead letter |
| FlushOrder.ReplayOrder | outbox.py:859-860 | with pages of one, no live claims and dependencies earlier, the attempts are strictly increasing in replay order |
| FlushOrder.FlushIsLeastFixpoint | outbox.py:845-863 | an always succeeding flush archives exactly the least set of old claimable rows closed under met dependencies |
| DurableOutboxes.DurableOutbox.constructor | outbox.py:274-290 | a new outbox has empty tables |
| DurableOutboxes.DurableOutbox.Enqueue | outbox.py:448-495 | in place: inserts, recognises or refuses an operation as the transaction does |
| DurableOutboxes.DurableOutbox.ReserveSequence | outbox.py:497-530 | in place: opens or touches the session and hands out its next number |
| DurableOutboxes.DurableOutbox.EnqueueTurn | outbox.py:532-633 | in place: the turn and its operation together, or a rollback of both |
| DurableOutboxes.DurableOutbox.IndexTurn | outbox.py:635-687 | in place: a turn indexed at a given number, an exact repeat, or a rollback |
| DurableOutboxes.DurableOutbox.MarkSessionReconcile | outbox.py:689-714 | in place: the reconcile flag and a non-empty parent |
| DurableOutboxes.DurableOutbox.RecordTurnRevision | outbox.py:759-766 | in place: the revision of the operation's turn and of no other |
| DurableOutboxes.DurableOutbox.TurnRevision | outbox.py:768-776 | reads the recorded revision of the operation's turn, if there is one |
| DurableOutboxes.DurableOutbox.ClaimPage | outbox.py:822-887 | in place, with its loop of guarded updates |
| DurableOutboxes.DurableOutbox.ClaimSelected | outbox.py:864-886 | the loop over the selected rows builds exactly the claims of the rows it changed |
| DurableOutboxes.DurableOutbox.RenewClaim | outbox.py:920-937 | in place: a new lease for the holder, ClaimLost for anyone else |
| DurableOutboxes.DurableOutbox.ArchiveAndDelete | outbox.py:978-1022 | in place: the holder's row moves to history |
| DurableOutboxes.DurableOutbox.ApplyResult | outbox.py:939-976 | in place: archive, or new state and released claim; SUPERSEDED changes nothing |
| DurableOutboxes.DurableOutbox.Supersede | outbox.py:1024-1101 | in place: replacement inserted and row archived together, or neither |
| DurableOutboxes.DurableOutbox.UnblockAuth | outbox.py:1103-1113 | in place: blocked rows become pending; returns how many |
| DurableOutboxes.DurableOutbox.ReleaseUnattempted | outbox.py:1219-1235 | in place: the loop of token-guarded updates |
| DurableOutboxes.DurableOutbox.AttemptPage | outbox.py:1196-1207 | the inner loop of flush follows the machine of `Flush` step by step |
| DurableOutboxes.DurableOutbox.Flush | outbox.py:1169-1217 | the loops of flush end in the store, the report or the exception of `RunFlush` |
| Sessions.TurnStartQueue.Record | sessions.py:30-37 | appends to the session's queue and to no other |
| Sessions.TurnStartQueue.Consume | sessions.py:39-64 | the loop of pops leaves what `Consumed` says |
| Sessions.TurnStartQueue.Clear | sessions.py:66-69 | drops the session's queue |
| Sessions.ConsumeExact | sessions.py:39-64 | succeeds iff the hash is queued; returns the earliest match, drops it and precisely the entries before it; a failure changes nothing; no other session is touched; no empty queue stays |
| Sessions.ConsumedAreRecorded | sessions.py:30-69 | over any run, what was consumed followed by what is queued is a subsequence of what was recorded |
| Sessions.PlanRewindCorrections | sessions.py:89-107 | the loop with its Counter returns the plan |
| Sessions.PlanSplits | sessions.py:93-106 | kept hashes are the multiset intersection with the transcript, corrected ones the difference |
| Sessions.KeptAreEarliest | sessions.py:95-98 | per hash, a kept turn has only kept turns before it |
| Sessions.StaleInOrder | sessions.py:95-106 | corrections are of indexed turns, in the order of their sequence |
| Sessions.PlanIsMinimal | sessions.py:93-106 | no smaller set of corrections leaves only turns the transcript has |
| Sessions.PlanIgnoresOrder | sessions.py:95-95 | the plan does not depend on the order of either input when sequences are distinct |
| Capture.CommittedTurns | capture.py:197-216 | the loop reads the turns of the transcript |
| Capture.TurnsAreExchanges | capture.py:197-216 | the committed turns of every transcript are the user texts directly followed, among the admitted messages, by an assistant text |
| Capture.LastExchangeCounts | capture.py:206-214 | whatever is pending, the last user message with its first answer is a turn, and a second answer changes nothing |
| Capture.TurnsOfPrefix | capture.py:197-216 | the turns of a prefix are a prefix of the turns |
| Capture.OthersDoNotCount | capture.py:206-214 | deleting a message that is not user text or assistant text without tool calls never changes what is read |
| Capture.ReadRendered | capture.py:197-216 | turns rendered as user and assistant messages are read back as they were |
| Capture.ReadRenderRead | capture.py:197-216 | for every transcript, reading what was read and rendered gives the same turns |
| Capture.UnquoteQuote | runtime.py:824-829 | percent-decoding undoes percent-encoding on all byte strings |
| Capture.TurnHashUniqueIff | capture.py:25-26 | no other turn has a turn's hash if and only if neither of its texts contains a NUL |
| Capture.NulMovesTheBorder | capture.py:25-26 | for every turn with a NUL in either text, another turn with its hash |
| Capture.IdealExists | capture.py:17-18 | the assumption made of the hash can be met |
| Capture.OperationPartsInjective | capture.py:92-98 | for NUL-free agents the input of the operation id determines agent, session, sequence, turn number and hash, whatever the session id contains |
| Capture.SourceIdInjective | capture.py:99-109 | source ids determine agent, session, sequence and turn number |
| Capture.TurnIdentitiesDistinct | capture.py:76-118 | turns that differ in agent, session or sequence have different operation ids and different source ids |
| Capture.CorrectionEndpointRoundTrip | runtime.py:824-829 | the executor recovers every source id from its endpoint, which the outbox accepts and both sides classify as a correction |
| Capture.CorrectionEndpointValid | outbox.py:783-789 | the endpoint built for any source id passes validation |
| Reconcile.AppendedIsLast | outbox.py:532-633 | a captured turn becomes the last of its session's index, and nothing else in it changes |
| Reconcile.CaptureExact | runtime.py:536-583 | a capture that returns has appended one turn with the hash of its text, under a new operation |
| Reconcile.CaptureIdentity | runtime.py:546-583 | a captured turn has the identity derived from the sequence number its slot got |
| Reconcile.CaptureContents | runtime.py:548-583 | a captured turn's stored mutation, spelled out: both texts under their roles, title, source id, operation id, hash and key from agent, session, slot number, turn number and texts, the recorded parent, and no dependency |
| Reconcile.CaptureRefused | capture.py:86-90 | a negative turn number or an empty session id is refused and changes nothing |
| Reconcile.CapturesNeverCollide | runtime.py:536-583 | captures of one agent share an operation id or a source id only at the same session and number |
| Reconcile.MissingIsSurplus | runtime.py:597-606 | per hash, the turns back-filled are the transcript's surplus over the index |
| Reconcile.OneFront | runtime.py:592-595 | every transcript has exactly one front: its turns without a last one that is the current turn, or all of them |
| Reconcile.BackfillIsMaximum | runtime.py:592-611 | after the back-fill each hash is indexed as often as before, or as the front has it, if that is more |
| Rerun.BackfillInOrder | runtime.py:597-606 | what the back-fill captures is a subsequence of the front, appended to the index in that order |
| Rerun.BackfillsIff | runtime.py:592-611 | a reconciliation that returns leaves the index as it was if and only if each turn of the front was indexed as often as it occurs; so a current turn that ends the transcript is not captured there |
| Reconcile.MultisetLaw | runtime.py:585-646 | the turns left uncorrected number, per hash, min(max(indexed, front), transcript), contain the front, and equal the transcript when the front is all of it |
| Reconcile.CorrectionsAccepted | runtime.py:625-646 | every stale turn has its correction in the outbox, the session is settled, and the rest only evolved |
| Reconcile.CorrectionContents | runtime.py:625-645 | the correction of a stale turn, spelled out: it marks the turn's source stale at the revision on record, waiting for the turn itself if that is queued |
| Rerun.RerunIff | runtime.py:596-646 | reconciling again on the same transcript, with an index that may have grown: it returns if and only if every turn found stale kept its queued flag and revision and the corrections of later stale turns are taken; exactly when it adds an operation; later turns are stale exactly when their hashes are indexed more often than committed; it never adds an index row |
| Rerun.RunExtends | outbox.py:532-633 | every run that indexes no turn by hand leaves a session's index with the earlier turns first, in order, as they were but for flag and revision |
| Rerun.RerunAfter | runtime.py:596-646 | the outcome of RerunIff after every such run of any workers |
| Rerun.LaterIff | runtime.py:596-646 | reconciling again when the transcript has gone on: if the back-fill returns, the run returns if and only if the earlier turns still stale kept flag and revision and the corrections of later stale turns are taken; what is still stale was stale then |
| Rerun.LongerHasMore | capture.py:197-216 | a transcript that goes on has every turn as often as before |
| Rerun.EnqueueAllAgain | outbox.py:817-820 | re-enqueueing corrections succeeds exactly when each is the accepted one, and changes nothing |
| Rerun.EnqueueAllExact | runtime.py:625-645 | enqueueing distinct corrections takes them up to the first that alone would be refused, and adds those among them that are not known |
| ReconcileAgain.DeliveredTurnConflicts | runtime.py:155-177 | a run in which sync_turn raises: a turn captured, rewound and replaced by another, delivered after its correction was planned, and a session switch before the next sync_turn on that transcript |
| ReconcileAgain.ResentTurnCorrected | runtime.py:155-177 | a run in which a live turn gets corrected: a turn captured, rewound, sent again in the same words and captured again, a session switch, and sync_turn on that transcript; the second capture is still queued and now has a correction that was not there |
| ReconcileAgain.CorrectionIdDiffers | runtime.py:629-632 | the id of a correction is never the id of a turn of the same agent |
| Executor.VerdictIsNoSupersede | client.py:321-328 | success is reported only for a receipt under the operation's own key, and for a capture only after its revision is recorded |
| Executor.SupersededOnlyAfterSupersede | runtime.py:776-787 | the executor answers SUPERSEDED only when its supersede succeeded |
| Executor.ReplacementIdentity | runtime.py:757-786 | a replacement changes only revision, recorded operation id and key; its id is determined by, and determines, operation, revision and action |
| Answers.CaptureAnswered | runtime.py:655-668 | a capture sends its stored body to memory/raw under its key; every response becomes the store and the result spelled out: blocked on 401 and 403, retried on 429, 5xx and transport errors, buried on 404, by its code on 409, buried on anything broken or on another key's receipt, else succeeded with its revision recorded |
| Answers.ExposureAnswered | runtime.py:669-677 | likewise an exposure report, sent to memory/expose |
| Answers.CorrectionAnswered | runtime.py:678-702 | likewise a correction, sent to its source's path with the revision of the write it depends on filled in; 404 makes it obsolete |
| Answers.NoRevisionYet | runtime.py:681-692 | without that revision nothing is sent and the correction is retried |
| Answers.Misfits | runtime.py:703-739 | what has no branch is buried, and a body or an endpoint that does not fit its branch is a retry |
| Answers.CorrectionPreviewed | runtime.py:741-787 | a correction up for revision is previewed: obsolete if erased or satisfied, buried if denied or without a revision, else superseded by the same correction at current_revision, or at revision only without it |
| Answers.RefusedWaits | outbox.py:939-976 | refused with 401 or 403, an operation stays as it is and unclaimable through every run without unblock_auth, which makes it ready at once |
| Answers.ConflictAsksFirst | runtime.py:693-694 | the next claim of a correction refused with revision_conflict, by any worker after any transactions, asks for a preview and goes on as the preview says |
| Answers.ReplacementSendsRevision | runtime.py:766-786 | the replacement is sent with the revision the preview reported |
| Runtime.SibylRuntime.EnqueueCapture | runtime.py:536-583 | in place: the turn is enqueued with the identity of the sequence number it gets, holding what `Reconcile.CaptureContents` spells out |
| Runtime.SibylRuntime.BackfillLoop | runtime.py:597-611 | the loop with its Counter captures exactly the missing turns, in order, up to the first failure |
| Runtime.SibylRuntime.EnqueueLoop | runtime.py:625-645 | the loop enqueues the corrections in order, up to the first refusal |
| Runtime.SibylRuntime.ReconcileSession | runtime.py:585-646 | in place: back-fill, plan, enqueue, mark, as the reconciliation of `Reconcile` |
| Runtime.SibylRuntime.SyncTurn | runtime.py:141-177 | in place: reconcile if asked, match the turn's start, capture the turn whether or not it matched |
| Runtime.SibylRuntime.OnTurnStart | runtime.py:127-131 | records the start of a turn whose cleaned message is not empty |
| Runtime.SibylRuntime.OnSessionSwitch | runtime.py:191-213 | in place: clears on reset, settles the parent, asks to reconcile; the fields change even when the session id is refused |
| Runtime.SibylRuntime.ExecuteOperation | runtime.py:653-739 | in place: the dispatch, the guard read, the exchange and the recording end as `Execute`, of which `Answers` spells out every outcome |
| Runtime.SibylRuntime.ReconcileCorrection | runtime.py:741-787 | in place: obsolete, denied, or superseded at the revision the preview reports, as `Answers.CorrectionPreviewed` spells out |
| Runtime.ReconciledCounts | runtime.py:585-651 | after a reconciliation that returns each hash is indexed as often as before, or as the front has it, if that is more |
| Runtime.SyncCoversTranscript | runtime.py:155-177 | after a sync_turn that reconciles, each hash is indexed as often as before or as the front has it, and once more for the current turn; so every committed turn is indexed as often as it occurs |
| Runtime.SyncUsesStart | runtime.py:161-177 | the capture carries the number of the earliest recorded start with the user's text, or its own sequence number; the starts up to that one are used up |
| Runtime.ResyncIff | runtime.py:155-177 | sync_turn, a switch, and sync_turn on the same transcript: exactly when the second reconciliation returns, and exactly when it corrects the capture the first call made |
| Runtime.SwitchKeepsParents | runtime.py:199-211 | a switch settles on the parent on record, else on none after a reset, else on the one given; it stores it, asks to reconcile, and leaves the numbers and every other session alone |
| RuntimeFlush.ReactionIsHonest | runtime.py:776-787 | with any transactions of other workers before, inside and after a call, the executor reports SUPERSEDED only with its own claim gone |
| RuntimeFlush.RuntimeFlushEndsClean | outbox.py:1169-1235 | the runtime's flush, whatever the server answers and whatever other workers and the clock do between pages, around calls and inside them: each operation attempted once, no claim left behind when it returns, and released rows with their attempts back |
| RuntimeFlush.RuntimeFlushReplaysInOrder | outbox.py:1185-1207 | it replays in order of acceptance under the conditions of `ReplayOrder`, with enqueues and ticks inside the calls |
| DeliveryInvariant.KeysDetermineIds | runtime.py:379-379 | no two operations of the runtime share an idempotency key, whatever their ids and kinds |
| DeliveryInvariant.OutStays | runtime.py:676-691 | once an operation can be sent, its path and payload never change, whatever happens to the tables |
| DeliverySteps.DependencyHasRevision | outbox.py:768-776 | a captured turn whose operation has left the queue has its revision on record |
| DeliverySteps.GuardAvailable | runtime.py:676-690 | the revision that guards a claimed correction is always there |
| DeliverySteps.ReceiptProvesService | client.py:321-328 | a receipt under the operation's key proves that this operation was served, and for a capture with that revision |
| DeliverySteps.ReactKeeps | runtime.py:653-787 | every event of host, worker, network or server keeps the protocol's invariant |
| DeliverySteps.ReachableWorld | outbox.py:822-1022 | so every interleaving from an empty database and an untouched server does |
| DeliverySteps.ReadStaysAllowed | runtime.py:612-645 | an index record read in any world may be corrected in every later one, however stale it has become: the move's guard stays true |
| DeliveryTheorems.SentUnderOneKey | runtime.py:653-703 | every send of an operation has one key and one payload, no two operations share a key, and the server never sees a key with another payload |
| DeliveryTheorems.ExactlyOnce | runtime.py:653-703 | every operation has at most one effect, the one it prescribes, and exactly one if archived as succeeded or replayed |
| DeliveryTheorems.CorrectionsAreGuarded | runtime.py:672-698 | every correction that goes out carries an expected revision: its own, or the one the server answered for the source write it depends on |
| DeliveryTheorems.DeliveredTurnsHaveRevisions | outbox.py:732-766 | a captured turn no longer queued was archived as a success with the server's revision on record |
| DeliveryTheorems.RevisionNeverMissing | runtime.py:678-689 | the executor's branch for a missing dependency revision is unreachable |
| DeliveryTheorems.CallIsOneSchedule | runtime.py:653-739 | the executor as one step is the schedule of its single steps with nothing in between |
| FlushDelivery.CallLeads | runtime.py:653-739 | a call of the executor, with captures, wishes, rewind corrections and other transactions of the host before, inside and after it, is a schedule of the protocol |
| FlushDelivery.FlushIsSchedule | outbox.py:1169-1235 | every run of flush by the runtime, claims, calls, results and deadline release, with the host's transactions between pages and in the calls and with receipts that may name any other key, is a schedule of the protocol and ends in its store |
| FlushDelivery.FlushDeliversOnce | outbox.py:1169-1217 | after any run of the protocol, such a flush leaves every operation with at most one effect, and exactly one if archived as succeeded or replayed |
| FlushDrains.FlushesAgree | outbox.py:1185-1217 | while the server accepts, the runtime's flush goes as one whose executor succeeds at everything |
| FlushDrains.FlushDrainsAll | outbox.py:1169-1217 | when nothing is claimed, blocked, buried or up for revision and the server accepts, one flush with the host enqueueing meanwhile archives all that was queued as successes, and the server has served each exactly once |
| SyncDelivery.SyncIsHostRun | runtime.py:141-177 | a sync_turn, whether it returns or raises, is a run of the host's moves, so it may fall anywhere in a schedule and between the calls of a flush |
| SyncDelivery.DeliveredLaw | runtime.py:585-646 | after a reconciliation and any schedule that delivers its captures and corrections, captures served less corrections served number, per hash, min(max(indexed, front), transcript) |
| SyncDelivery.ReconciledAndFlushed | runtime.py:585-651 | a reconciliation, some time and one flush with a server that accepts bring the server there |

## Left out

- SQLite itself: WAL, pragmas, busy timeout, file modes, schema creation and migration, connections, the closed flag and `shutdown`.
- The gap between reading the wall clock and taking the write lock, and ISO timestamp formatting.
- JSON encoding, secret-key rejection and the redaction and truncation of error texts: error texts are stored as given.
- HTTP transport, timeouts, header limits on keys, error envelopes and response schemas, beyond receipt matching and revisions of at least 1.
- The rebuilding of a request from its stored JSON before it is sent: the body sent is the body stored, with the guard revision filled in.
- Recall, prefetch, thread pools, credential probing, logging, shutdown threads, the command line, configuration and provider plumbing.
- OutboxRuns.SnapshotCountsRows: the age of the oldest row and the duration in a flush report are not modelled, because they are clock readings for display.
- Runtime.SibylRuntime.ReconcileSession: its contract is for a call during which no other worker writes; `Delivery` covers interleaved ones by letting a reconciler act on any index record it has ever read.
- Delivery.HostStep: `index_turn` is not among its moves, because the runtime never calls it; the outbox lemmas cover it.
- Capture.CommittedTurns: flattening of structured message content and extraction of skill instructions happen before the messages it reads.
- FlushDelivery.FlushIsSchedule: what it lets fall between pages, around calls and inside them are the host's transactions and the clock; calls of other executing workers between are covered by `DeliveryTheorems` alone, as events of their own.
- Reconcile.MultisetLaw: it speaks of one reconciliation against the index it reads; the index has no stale marker, so a turn staled by an earlier rewind still counts as indexed. `SyncDelivery.DeliveredLaw` counts the corrections of that one plan likewise.
- Requests.Upper: upper-casing of HTTP methods is modelled on ASCII letters.
- Platform metadata, provenance and the request hash inside a captured payload: they are one opaque text that is a function of session, parent and identity.
