# Verification of the research runtime

A Dafny model of the concurrent and stateful parts of the repository, with proofs over all inputs and all runs.
`dafny verify dfyconfig.toml` checks everything.

**The durable task runtime** (`alphapilot/research`) is the main part. API clients, one daemon, workers, child
command wrappers, foreground command-line holders and crashes work on the same SQLite tables.

- `Schema`, `Locks`, `Tasks`, `Runtime`: the tables and one function per committed write transaction.
- `TaskStore.Store`: the same transactions as the program performs them, updating one field per table, with the loops
  of the source; every method is proved to take the committed state to exactly the state of its function.
- `Protocol`: all actors as one state machine. A step is one write transaction, one stale read of the daemon, or one
  event of the operating system; any process may die at any moment, and the daemon may restart.
- `Invariants`, `JobMoves`, `Preservation`, `LockSafety`, `Completions`, `Inductive`: the inductive invariant and the
  moves of a job row.
- `Theorems`: what follows over whole runs. `Boundaries`: where a stronger claim fails, with a run that breaks it and
  the condition under which it holds.

**The other parts** stand on their own: the incremental UTF-8 log reader (`LogReader`), the versioned asset index
(`Assets`, `AssetHistory`), keyset pagination (`Paging`), schedules (`Schedules`), dataset dirty markers (`Markers`),
the resumable step loop (`Workflow`), the bounded graph search (`GraphSearch`) and the expression printer
(`Translate`), with what the operators it maps compute in the two factor libraries (`Operators`). `Wrappers` holds
the option type they share.

Most operations are stated twice: as a function of the old state, about which the theorems speak, and in the
operation's own fields and constants, without that function.

## Assumptions

- A write transaction is atomic (`BEGIN IMMEDIATE`), including the liveness check made inside it; a read outside one
  is a step of its own, and what it returned may be stale when it is used.
- Identifiers from `uuid4` are fresh, the request digest is injective, and a process identity (pid with birth and boot
  time) is never reused. The launcher may start any number of processes for a claimed attempt, at any later time.
- `ExecutionHandle.stop` returning true means that the recorded process and every listed child are gone. A foreground
  command stops the children it has listed before it leaves its hold; one admitted after that goes on.
- Lock scopes are bracketed: a process leaves only scopes it entered, the base scope of a foreground hold last.
- A request list matters only as a set of requests; lock rows are grouped by owner.
- A log only grows, and a terminal job stays terminal; a late worker may still write.
- A convert or pipeline that returns has rewritten its whole directory, and no two paths name one directory.
- The values of a factor are those of one instrument, in exact arithmetic, on days with enough history before them;
  division, logarithm, root and power are the same floating-point operations in both libraries and stay uninterpreted.
- No user names an asset `deleted:` followed by an id. Constants of the expression engine are finite.

## Code and comments that differ

- `run_due` says that it does not overwrite a concurrent edit. It can, when the schedule was deleted and saved again
  under the same id, because the revision starts at 1 again (`Schedules.RecreatedIsOverwritten`); `EditsSurvive` and
  `LossHasCause` say exactly when.
- A committed success can end lost, even when the daemon had read it (`Boundaries.ReadSuccessCanBeLost`);
  `CompletionHonoured` says exactly when.
- `docs/research/README.md:148` says that a failed write leaves a dirty marker until a conversion succeeds, and that
  of the modes sharing a directory only the one converted last is ready. A guarded convert or pipeline publishes its
  setting in every directory it covers, whichever it converts, and removes another execution's marker there
  (`Markers.LiftedMarkerLooksReady`, `Markers.OtherSettingLooksReady`); a conversion of a directory that is neither
  named nor filled marks nothing (`Markers.UnmarkedWriteLooksReady`). `ReadyIsWhole` and `PublishedIsMade` say exactly
  when the readiness check is right.
- The log reader flushes an unfinished character at the end of a terminal job's log; when the log grows on, its text is
  no longer that of the whole log (`LogReader.FlushCanTear`). `PolledTextIsDecoded` gives the condition.
- `get_nodes_within_steps` says that it returns all nodes within the distance; it leaves out the start node, and an
  empty label list filters nothing (`GraphSearch.NodesWithinSteps`).
- The translator refuses operators without a faithful equivalent (`translate.py:12-14`), but six that it maps are not
  faithful: `ts_med` on even windows, `ts_mad` from three days on, `ts_rank` from two days on (its rank counts from
  the top), `ts_wma`, `ts_ema` and `CSRank`. `Operators.TextKeepsValueIff` and `CrossRanksDiffer` say exactly where;
  `ValueIsKept` shows that the expressions of all the others keep their values.

## Model

| member | source | states |
|---|---|---|
| Locks.UpgradeJoins | alphapilot/research/execution.py:53-67 | acquiring on top of what an owner holds leaves it with the join of all requests, write beating read |
| Locks.RefusedIff | alphapilot/research/execution.py:58-61 | a request is refused iff another owner has a row on a requested resource and the row or the request is for writing |
| Locks.ReadersShare | alphapilot/research/execution.py:58-61 | a request to read only is refused iff another owner writes one of its resources: readers share |
| Locks.GrantCompatible | alphapilot/research/execution.py:58-66 | a granted request never creates two owners with excluding modes on a resource |
| Locks.ReacquireNeverBlocked | alphapilot/research/execution.py:107-113 | after dropping its rows an owner can always get back any part of what it held |
| Locks.ReacquireIsJoin | alphapilot/research/execution.py:107-113 | the second acquire of a closing scope leaves exactly the join of what remains |
| TaskStore.MergeRequests | alphapilot/research/execution.py:54-57 | the merge loop yields one mode per resource, write iff some request asked for write |
| TaskStore.Store.FindConflict | alphapilot/research/execution.py:58-61 | the check loop finds a conflict iff another owner has a row on a requested resource and the row or the request is for writing |
| TaskStore.Store.WriteRows | alphapilot/research/execution.py:62-66 | the write loop leaves the owner each row it had or asked for, in write mode iff it had or asked for that, and no other owner changes |
| TaskStore.Store.AcquireIn | alphapilot/research/execution.py:53-67 | all requested rows or none, granted iff no other owner writes a requested resource or holds one to be written |
| TaskStore.Store.Release | alphapilot/research/execution.py:73-77 | the owner's rows and scopes go, its execution is finished, and every other owner keeps its own |
| TaskStore.Store.EnterHold | alphapilot/research/execution.py:83-95 | a nested hold is entered iff its execution is live and nothing is busy; a refusal changes nothing |
| TaskStore.Store.EnterForegroundHold | alphapilot/research/execution.py:79-95 | a command-line hold creates its execution with its scope, or leaves no trace |
| TaskStore.Store.LeaveHold | alphapilot/research/execution.py:106-115 | leaving a hold re-acquires the base and the other scopes of the owner: it ends with their join, or with nothing if another owner is in the way |
| TaskStore.Store.SubmitJob | alphapilot/research/tasks.py:89-99 | a free key with room is admitted, with exactly the fields and resources submitted; a used one is replayed, refused or gone, and nothing is inserted |
| TaskStore.Store.CancelJob | alphapilot/research/tasks.py:168-183 | a queued job is cancelled with its note, one in flight is cancelling, a terminal one is left alone; stop mark, completion and all other jobs stay |
| TaskStore.Store.DeleteJob | alphapilot/research/tasks.py:226-236 | deletion is refused while active and otherwise only hides the row |
| TaskStore.Store.FindFirstQueued | alphapilot/research/runtime.py:75-77 | the claimed row is the oldest queued one, ties by id |
| TaskStore.Store.ClaimNext | alphapilot/research/runtime.py:69-88 | a claim takes the oldest queued job iff a slot and its resources are free; the job is starting under the attempt, which holds what the job asked for |
| TaskStore.Store.ClaimAll | alphapilot/research/runtime.py:103-112 | the claim loop ends and makes a chain of allowed claims |
| TaskStore.Store.SaveIdentity | alphapilot/research/runtime.py:106-110 | the launcher registers an identity only where none is, and changes no other execution |
| TaskStore.Store.AskStop | alphapilot/research/runtime.py:114-125 | the job goes to cancelling with the reason, and one already cancelling keeps the mark it has or lacks; other jobs, other attempts and terminal jobs are untouched |
| TaskStore.Store.ExpireStart | alphapilot/research/runtime.py:135-148 | only the current starting attempt is invalidated: it can no longer start and is marked for requeue; all other jobs stay |
| TaskStore.Store.ReadRows | alphapilot/research/runtime.py:127-130 | the rows read are those of the starting, running and cancelling jobs, as they are |
| TaskStore.Conclude | alphapilot/research/runtime.py:181-206 | the final row: a requested stop beats a completion, a success without its file is a failure |
| TaskStore.Store.FinalizeJob | alphapilot/research/runtime.py:176-211 | finalize refuses exactly when superseded, terminal or mismatched, and then changes nothing; otherwise the row, execution, locks, scopes and note are as the status, the stop mark, the outcome and the file decide |
| TaskStore.Store.Reconcile | alphapilot/research/runtime.py:127-165 | the loop over stale rows is the fold of one-row reconciliations |
| TaskStore.RowIsReconciled | alphapilot/research/runtime.py:131-165 | what one turn makes of a row, case by case: stopped with which mark, or ended as the mark or the committed outcome says, failure included, lost without one |
| TaskStore.Store.StartWorker | alphapilot/research/runtime.py:242-249 | a worker starts iff it is the current starting attempt |
| TaskStore.Store.CompleteWorker | alphapilot/research/runtime.py:262-270 | a completion is committed iff the attempt is current and running |
| TaskStore.Store.AdmitChild | alphapilot/research/process.py:28-39 | a child is admitted iff its execution is live, not being cleaned up, and its job runs this attempt |
| TaskStore.Store.TakeNotes | alphapilot/research/runtime.py:225-229 | exactly the unsent notifications are taken and marked |
| Inductive.RunHolds | alphapilot/research/runtime.py:69-270 | the invariant of jobs, executions, locks, scopes, children, keys, results and capacity holds in every reachable state |
| Theorems.RunMoves | alphapilot/research/runtime.py:69-270 | every step moves each job row along an edge of the job state machine |
| Theorems.ReliedIsHeld | alphapilot/research/execution.py:79-115 | whatever an active attempt declared or a live scope asked for is covered by lock rows |
| Theorems.MutualExclusion | alphapilot/research/execution.py:53-115 | two executions never rely on excluding modes of one resource, over all runs with nested scopes and crashes |
| Theorems.JobsExclude | alphapilot/research/runtime.py:69-88 | no two jobs in starting, running or cancelling have conflicting resources |
| Theorems.LockTableIsJoin | alphapilot/research/execution.py:53-67 | an execution's lock rows always equal the join of its base resources and open scopes |
| Theorems.CloseKeepsTheRest | alphapilot/research/execution.py:107-113 | in every reachable state the re-acquire on scope close is granted |
| Theorems.CloseHoldKeepsTheRest | alphapilot/research/execution.py:97-115 | in every reachable state the re-acquire on leaving an outermost foreground hold is granted |
| Theorems.FinishedOwnsNothing | alphapilot/research/runtime.py:207-209 | a finished attempt owns no locks and no scopes |
| Theorems.EnteredAtMostOnce | alphapilot/research/runtime.py:238-255 | a job's executor body is entered at most once over any run |
| Theorems.NeverRequeued | alphapilot/research/runtime.py:135-148 | once past the start check, or stopped without a requeue mark, a job is never queued again |
| Theorems.TaskNeverChanges | alphapilot/research/tasks.py:97-99 | client, key, digest and resources of a job never change |
| Theorems.SubmittedStays | alphapilot/research/tasks.py:89-99 | over every run an admitted job keeps the creation time, client, key, digest and resources of its submission |
| Theorems.SubmittedIsHeld | alphapilot/research/runtime.py:69-88 | while a job is in flight its attempt holds every resource it was submitted with, for writing if it asked so |
| Theorems.SubmittedExclude | alphapilot/research/runtime.py:69-88 | two jobs in flight that were submitted with one resource both asked only to read it |
| Theorems.OneJobPerKey | alphapilot/research/tasks.py:89-99 | per client and key at most one job ever exists, deletion included |
| Theorems.RepliesAgree | alphapilot/research/tasks.py:61-126 | all accepted answers for a key name one job and one request, and that job is entered at most once |
| Theorems.AcceptedCancelSticks | alphapilot/research/tasks.py:168-183 | a cancel accepted from queued, starting or running leaves the job cancelling or cancelled for ever |
| Theorems.CancellingResolves | alphapilot/research/runtime.py:184-186 | a job leaves cancelling to cancelled iff it carried no stop mark, whatever was cancelled later |
| Theorems.TerminalForever | alphapilot/research/runtime.py:176-206 | a terminal job keeps status, attempt and result for ever |
| Theorems.NotifiedOnce | alphapilot/research/runtime.py:210-235 | a job has its one notification iff it is terminal, with its final status, delivered at most once |
| Theorems.SuccessHasResult | alphapilot/research/runtime.py:187-198 | a succeeded job references the existing result file of its own last attempt |
| Theorems.CapacityHolds | alphapilot/research/runtime.py:70-88 | active jobs stay within C and queued plus active within Q + C, requeues included |
| Theorems.SupersededIsFenced | alphapilot/research/runtime.py:242-268 | no step of a superseded attempt's process changes the job, a notification or another owner's locks |
| Theorems.NoChildAfterCancelling | alphapilot/research/process.py:28-40 | once its job is cancelling an attempt admits no further child |
| Theorems.FinalizeAfterAllStopped | alphapilot/research/runtime.py:154-165 | when finalize frees the locks, every child ever admitted and the worker are gone |
| Theorems.ReleaseAfterAllStopped | alphapilot/research/runtime.py:167-174 | when the daemon releases a foreground execution, every child it admitted and its process are gone |
| Boundaries.ReconcileRowIsStep | alphapilot/research/runtime.py:131-165 | every turn of the reconcile loop is one step of the protocol or none |
| Boundaries.CompletionHonoured | alphapilot/research/runtime.py:114-206 | over every run a job with a committed outcome leaves running with that outcome iff finalize takes it with the outcome read, lost iff without, and under any other step cancelling; a success publishes its file |
| Boundaries.CompletionDecided | alphapilot/research/runtime.py:114-206 | a job with a committed outcome, success or failure, ends with it if finalize with the outcome read took it out of running, lost if without, and otherwise as its stop mark says |
| Boundaries.OutcomeIsDelivered | alphapilot/research/runtime.py:127-235 | a run in which a job ends with the outcome its worker committed, is notified and frees its locks, for success and failure |
| Boundaries.ReadersRunTogether | alphapilot/research/runtime.py:69-88 | a run in which two jobs that read one resource run at once |
| Boundaries.SuccessCanBeLost | alphapilot/research/runtime.py:128-165 | a run in which a success committed after its row was read ends lost |
| Boundaries.ReadSuccessCanBeLost | alphapilot/research/runtime.py:149-158 | a run in which a success the daemon had read ends lost, after a stop that was not confirmed |
| Boundaries.CancelCanBeRequeued | alphapilot/research/runtime.py:144-147 | a run in which a cancel accepted during a start timeout ends in the queue |
| Boundaries.HoldLeavesLocks | alphapilot/research/execution.py:107-115 | a finished foreground execution keeps a lock iff another scope row of it still asks for it |
| Boundaries.KilledChildLeavesLock | alphapilot/research/execution.py:107-115 | a run in which a killed child's scope makes a finished hold keep its lock |
| Boundaries.ChildOutlivesHold | alphapilot/research/execution.py:97-115 | over every run a child outlives the hold its process leaves iff it was admitted after the children were last listed |
| Boundaries.HoldLeavesChild | alphapilot/research/process.py:28-40 | a run in which a finished hold has given back its locks while an admitted child runs on |
| LogReader.HeldBack | alphapilot/research/tasks.py:208-214 | the decoder holds back less than four bytes, an unfinished character at the end |
| LogReader.FirstByEncoding | alphapilot/research/tasks.py:208-214 | a whole character reads as itself, the beginning of one waits, and U+FFFD replaces the longest beginning of a character or else one byte, as the standard decoder does |
| LogReader.EveryByteIsRead | alphapilot/research/tasks.py:208-220 | the input falls into one piece for each character of the text and what is held back: no byte is lost or read twice |
| LogReader.EncodingExamples | alphapilot/research/tasks.py:211-212 | the encoding is that of the examples in section 7 of RFC 3629 |
| LogReader.DecodeInPieces | alphapilot/research/tasks.py:211-219 | feeding the log in pieces decodes to the same text as feeding it at once |
| LogReader.RoundTrip | alphapilot/research/tasks.py:211-212 | decoding the UTF-8 encoding of any text gives that text |
| LogReader.Decoder.Feed | alphapilot/research/tasks.py:211-220 | the loop over the characters emits the decoding of what was held back and the new input, and holds back its rest |
| LogReader.ReadEnough | alphapilot/research/tasks.py:212-219 | up to three bytes beyond the limit are read until one character is whole |
| LogReader.ReadLog | alphapilot/research/tasks.py:199-224 | a poll returns the text of the bytes it passed, stops at a decoder boundary and moves unless a character is unfinished |
| LogReader.PolledTextIsDecoded | alphapilot/research/tasks.py:199-224 | for any limits and growth the polled texts concatenate to the decoding of the bytes passed, iff no poll flushed a character that was continued afterwards |
| LogReader.TerminalPollsFinish | alphapilot/research/tasks.py:220-224 | on a terminal job a poll advances or is at the end of the log, and says complete iff it is; a log at rest is delivered at one byte a poll or more |
| LogReader.SessionDelivers | alphapilot/research/tasks.py:199-224 | a complete session has delivered exactly the text that was logged, iff it tore no character |
| LogReader.FlushCanTear | alphapilot/research/tasks.py:220-224 | a session on a terminal job in which a character arrives as two replacements |
| Assets.Index.IndexOne | alphapilot/research/assets.py:65-78 | one record updates its live row or gets a fresh id, a tombstone giving up its name |
| Assets.Index.IndexAll | alphapilot/research/assets.py:62-84 | after a pass each live row shows its record, one revision on iff it changed, or is deleted; deleted rows stay; records without a row get one at revision 1 |
| Assets.Index.Rename | alphapilot/research/assets.py:138-145 | the id takes the name and any other holder of the name is renamed away |
| Assets.Index.Update | alphapilot/research/assets.py:121-136 | an edit is refused with its reason and no change, or replaces exactly its record under the expected revision: the new body and name if given, the old ones if not |
| Assets.Index.Remove | alphapilot/research/assets.py:240-268 | a deletion needs the current revision and tombstones exactly that row |
| AssetHistory.HistoryGrows | alphapilot/research/assets.py:62-84 | over any history ids stay, revisions only grow, and an unchanged revision means unchanged content |
| AssetHistory.DeletedForever | alphapilot/research/assets.py:69-75 | a deleted id never becomes live again |
| AssetHistory.OneContentPerRevision | alphapilot/research/assets.py:73-75 | one id at one revision has one content, whenever it is read |
| AssetHistory.OneToOne | alphapilot/research/assets.py:62-84 | live rows and domain records correspond one to one by name |
| AssetHistory.RecreatedIsFresh | alphapilot/research/assets.py:69-78 | a name without a live row gets an id no earlier table held |
| AssetHistory.EditGrows | alphapilot/research/assets.py:121-136 | an edit is a stretch of history whatever its outcome |
| AssetHistory.EditBumps | alphapilot/research/assets.py:121-136 | an accepted edit leaves the body and the name it gave or else the old ones, at the next revision iff one of them differs from before |
| AssetHistory.AtMostOneEdit | alphapilot/research/assets.py:101-107 | of edits with one expected revision at most one that changes the domain is accepted |
| AssetHistory.EditKeepsOtherIds | alphapilot/research/assets.py:121-145 | an edit, renaming or not, keeps id, name and record of every other asset |
| AssetHistory.RemovalTombstones | alphapilot/research/assets.py:240-268 | a deletion needs the current revision, and its tombstone carries the next one |
| Paging.Select | alphapilot/research/artifacts.py:107-110 | the greatest rows below the cursor, in descending order |
| Paging.ListArtifacts | alphapilot/research/artifacts.py:85-113 | page, next cursor and the two refusals of the artifact list |
| Paging.ListTasks | alphapilot/research/tasks.py:143-166 | the task page, which fails as gone iff a row of that page is deleted before it is read again |
| Paging.PageIsUnique | alphapilot/research/artifacts.py:107-113 | the rows of the moment, the cursor and the limit determine the rows of the page |
| Paging.NoRowTwice | alphapilot/research/artifacts.py:85-113 | later pages hold only smaller keys, whatever is inserted or deleted meanwhile |
| Paging.ReturnedIff | alphapilot/research/artifacts.py:85-113 | a finished walk returns a key iff its row was there when the page covering the key was read |
| Paging.MissesNothing | alphapilot/research/artifacts.py:85-113 | a row present throughout a finished walk is returned |
| Paging.WalkEnds | alphapilot/research/artifacts.py:111-113 | over finitely many possible rows a walk ends, with at most one page more than rows |
| Schedules.Scheduler.Save | alphapilot/research/schedules.py:28-50 | a save needs the current revision and raises it, keeps the last day, drops the retry, and leaves other schedules alone |
| Schedules.Scheduler.RunDue | alphapilot/research/schedules.py:71-102 | an undisturbed pass treats every schedule as if it were alone: submitted iff due, done for the day if that succeeded, and otherwise due again a minute later |
| Schedules.EveryOccurrenceIsDue | alphapilot/research/schedules.py:82-93 | every scheduled job was asked for by an enabled saved configuration, for its local day and not before its time |
| Schedules.JobsStay | alphapilot/research/schedules.py:93-95 | an admitted occurrence is never replaced or admitted again |
| Schedules.OncePerDay | alphapilot/research/schedules.py:71-102 | a schedule whose time and owner never changed has at most one job per local day |
| Schedules.EditsSurvive | alphapilot/research/schedules.py:99-101 | over every run a write-back undoes the last edit iff its pass read an earlier incarnation with the current revision number and another configuration |
| Schedules.WriteBackChanges | alphapilot/research/schedules.py:99-101 | in any reachable state a write-back changes the stored configuration iff it brings a different one, under the same revision, of another incarnation than the stored one |
| Schedules.LossHasCause | alphapilot/research/schedules.py:99-101 | whenever an edit has been undone, one such write-back of an earlier incarnation did it |
| Schedules.RecreatedIsOverwritten | alphapilot/research/schedules.py:42-48 | a run in which a stale pass overwrites a schedule deleted and created again |
| Schedules.EditRunsTwice | alphapilot/research/schedules.py:93-101 | a run in which an edit of the time or of the owner gives two jobs on one day |
| Markers.Files.MarkRoots | alphapilot/research/guards.py:79-87 | every eligible root is marked once and its earlier marker remembered |
| Markers.Files.ClearRoots | alphapilot/research/guards.py:89-99 | every marked root gets its revision and is cleaned by the owner and repair rules |
| Markers.Files.StartJob | alphapilot/research/executor.py:258-262 | a data job remembers whether the dataset was dirty and marks it |
| Markers.Files.FinishJob | alphapilot/research/executor.py:319-326 | a data job publishes the revision and cleans unless it found the dataset dirty and did not repair it |
| Markers.Files.ConvertJob | alphapilot/research/executor.py:256-327 | a convert job makes its own dataset ready, and in every other directory the guarded call covers it publishes the same setting and leaves no marker but its own execution's |
| Markers.JobCleans | alphapilot/research/executor.py:256-327 | a data job on its own leaves the dataset clean iff it was clean or the job converted it, and then ready as converted |
| Markers.RunKeeps | alphapilot/research/guards.py:76-100 | the marker discipline holds for nested calls, aimed at this dataset or another, marked or not, with failures and crashes at any point |
| Markers.ReadyIsWhole | alphapilot/research/executor.py:110-123 | over every run a dataset that passes the readiness check holds a broken-off write iff, since its own last conversion, a failure was swallowed, or a conversion of another dataset removed another execution's marker, or the write was not marked |
| Markers.NeverHalfWritten | alphapilot/research/executor.py:110-123 | if failures escape, writes are marked and no conversion of another dataset finds another execution's marker, the readiness check accepts no half-written dataset |
| Markers.PublishedIsMade | alphapilot/research/guards.py:89-97 | over every run the revision names the setting of all rows there, unless the last call that changed either converted another dataset to another setting, converted this one under another name or unpublished, or wrote rows of another setting; and only then not |
| Markers.SwallowedFailureLooksClean | alphapilot/research/guards.py:88-99 | a run in which a swallowed failure ends with a clean marker |
| Markers.LiftedMarkerLooksReady | alphapilot/research/guards.py:33-34 | a run in which a conversion of another dataset makes a half-written one pass the readiness check |
| Markers.UnmarkedWriteLooksReady | alphapilot/research/guards.py:82-87 | a run in which the rest of an unmarked first conversion passes the readiness check |
| Markers.OtherSettingLooksReady | alphapilot/research/guards.py:91-97 | two runs without any failure in which a dataset passes the check for a setting it does not hold, or not alone |
| Markers.RepairCleans | alphapilot/research/guards.py:89-99 | a call on its own leaves the directory clean iff it was clean, or it is a convert or pipeline and another execution left the marker; it repairs the data iff they are its own target |
| Workflow.GetSteps | alphapilot/utils/workflow.py:26-43 | the recursive collection loop over the bases; a base not built by the metaclass has no list of its own |
| Workflow.NewClass | alphapilot/utils/workflow.py:45-70 | the steps of a class: the inherited ones, then the new public methods |
| Workflow.MadeIff | alphapilot/utils/workflow.py:18-43 | a class has a step list iff it or some ancestor names the metaclass |
| Workflow.StepsAre | alphapilot/utils/workflow.py:26-70 | the steps are the public methods of the metaclass-built ancestry, each once, starting with those of the first such base in their order |
| Workflow.OwnSteps | alphapilot/utils/workflow.py:26-70 | a workflow over plain bases has exactly its own public methods as steps, in order |
| Workflow.Loop.Run | alphapilot/utils/workflow.py:130-199 | a run follows the trajectory until the budget, an error or the stop event, stops at no other place, and saves after every success |
| Workflow.RoundsAreCounted | alphapilot/utils/workflow.py:165-191 | over every trajectory the loop index counts the returned last steps and the skips; a returned last step empties the outputs, a skip or a traceback restarts the steps and keeps them |
| Workflow.EarlierOutputsAreCurrent | alphapilot/utils/workflow.py:158-191 | from a fresh session or any later state, indices stay in range, and the outputs before the current step were made in this pass, each from those before it |
| Workflow.OnlyEarlierOutputsAreCurrent | alphapilot/utils/workflow.py:158-173 | every other output in the dictionary is left from a pass that was broken off |
| Workflow.SkipLeavesOutputs | alphapilot/utils/workflow.py:165-169 | such outputs do occur after a skip |
| Workflow.LastSnapshot | alphapilot/utils/workflow.py:187-195 | the last snapshot is the state after the last success |
| Workflow.ResumedOutputsAreCurrent | alphapilot/utils/workflow.py:130-195 | so they are in a session resumed from its last snapshot at any later time |
| Workflow.ResumeContinues | alphapilot/utils/workflow.py:130-195 | with deterministic steps a resumed session goes through the states of the uninterrupted one |
| GraphSearch.Enqueue | alphapilot/components/knowledge_management/graph.py:216-221 | exactly the allowed unvisited neighbours are queued, one step further out |
| GraphSearch.NodesWithinSteps | alphapilot/components/knowledge_management/graph.py:191-227 | exactly the kept nodes within the distance, without the start, each once, nearest first; terminates |
| GraphSearch.WalkIsFound | alphapilot/components/knowledge_management/graph.py:206-221 | the loop has followed every walk within the distance |
| GraphSearch.WithinIsSymmetric | alphapilot/components/knowledge_management/graph.py:191-227 | on an undirected graph two allowed nodes see each other from the same distance |
| Translate.SucceedsIffSupported | alphapilot/modules/alphaforge/translate.py:85-149 | translation succeeds iff every node is in the supported set |
| Translate.DigitsReadBack | alphapilot/modules/alphaforge/translate.py:80-82 | the text of a whole number reads back as that number |
| Translate.ShowApart | alphapilot/modules/alphaforge/translate.py:73-82 | in no printed tree do two operator characters meet |
| Translate.TextIsTree | alphapilot/modules/alphaforge/translate.py:85-149 | the text of an expression is the text of one DSL tree |
| Translate.ReadsBack | alphapilot/modules/alphaforge/translate.py:85-149 | a reader of the emitted grammar gets back the printed tree |
| Translate.OneTreePerText | alphapilot/modules/alphaforge/translate.py:85-149 | a text reads as a tree iff it is the text of that tree: text and tree determine each other |
| Translate.TranslationReads | alphapilot/modules/alphaforge/translate.py:73-149 | a translation has no two adjacent operators and reads as one tree only |
| Translate.MeaningIsKept | alphapilot/modules/alphaforge/translate.py:40-149 | the tree read from the text means what the expression means, for any operators that agree with the tables |
| Operators.ValueIsKept | alphapilot/modules/alphaforge/translate.py:85-149 | every expression of operators defined alike has, on every day with enough history, the value that the function library computes for its tree |
| Operators.TextKeepsValue | alphapilot/modules/alphaforge/translate.py:85-149 | whatever tree is read back from the text of such an expression has the value of the expression |
| Operators.AgreeIffAlike | alphapilot/modules/alphaforge/translate.py:50-65 | the engine's window operator and the function the table names for it agree on every history iff the operator is defined alike on that window length |
| Operators.TextKeepsValueIff | alphapilot/modules/alphaforge/translate.py:50-65 | the text of a mapped window operator on a column has its value for all prices and days iff the operator is defined alike on that window length |
| Operators.CorrelationsAgree | alphapilot/modules/alphaforge/vendor/alphagen/data/expression.py:478-487 | where both windows vary the two correlations agree |
| Operators.CrossRanksDiffer | alphapilot/components/coder/factor_coder/function_lib.py:41-44 | the cross-sectional rank of the library is greater than that of the engine by one over the number of instruments, for every instrument |

## Left out

- Translate.TranslationReads: does not claim that different expressions have different texts, because a rolling difference and the subtraction it stands for have the same one.
- GraphSearch.NodesWithinSteps: blocking without a label list is excluded, because the source raises a TypeError at the first neighbour.
- Workflow.StepsAre: a plain class that assigns its own `steps` list is excluded, because no class of the source does.
- Workflow.Loop.Run: a class without steps is excluded, because the source raises an IndexError at once.
- Containers and Docker intents: they can only keep a stop from being confirmed, which the model allows at any time.
- Run and artifact manifests, progress reports and `job.json` files: no transition modelled reads them.
- The drain setting, the timeout budget check and the checks of scopes, credentials and key length in `submit`: guards before the transactions modelled.
- `prepare` and `execute` themselves: a worker enters its body, may write its result file, and reports.
- A log file that does not exist yet: it reads as an empty log, which is included.
- HTTP routing, schemas, sign-in, secret scanning, migration, LLM clients, the user interface and the scripts.
- Kinds of assets other than one at a time, and validation inside the domain stores: the domain may change in any way between two passes.
- Which directories a guarded call covers and finds eligible: the protocol lets a call cover this dataset with any target, marked or not.
- `bind_dataset` beside the markers: its check for a features directory, the private view and its instrument files.
- `step_n=None`: the step loop is proved for every budget. Session pickling, logging and progress bars.
- Encoded cursors, totals and filters of the lists: a page is taken over the rows that match when it is read.
- Node identity in the graph: the source compares objects, so the start is taken to be the graph's own object; an equal copy would get the original back in its result.
- Semantic search, embeddings and node intersection of the graph; the search reads the neighbours in content order.
- Operators.ValueIsKept: pairs only in covariance; correlations agree where both windows vary (`CorrelationsAgree`), and where one hardly does the engine divides by one.
- Rounding, missing values, days before the first full window, and ties in a cross-sectional rank: the two libraries treat them in ways of their own.
- Not-finite constants and the DSL parser of the factor coder: the grammar read back is the one the printer emits.
