# A verified model of the download server's core

The server downloads videos one at a time, keeps them as jobs on disk, and hands out sessions and
share links. This project models the parts in which steps of many threads, failing storage and
restarts meet, and proves what holds over every run.

**The job manager** (`internal/app/manager.go`). `JobCore` has one function for each critical section
of the global mutex, on a value that holds every job object ever registered and the registry.
`Manager` is the same code as classes whose fields are updated in place, with the loops over the
registry; each method is proved to do to the abstract value exactly what the function of its
section says. `JobMachine` interleaves the sections: one download worker, two title workers, any
number of callers and detached saves, each with a program counter; a step ends wherever a lock is
released or a foreign call (Download, Fetch, Save, Remove) happens, and those calls answer in every
way they can, failures included. `Ownership` and `Invariant` state the invariant; `QuietSteps`,
`LockSteps`, `RemovalSteps` and `RegistrySteps` prove that every step keeps it. `Queue` and
`CalmSteps` sort all steps into those that leave the queue calm and those that enqueue one job;
`Runs`, `Deletion`, `Overtaking`, `Progress`, `Liveness`, `Shutdown`, `TitleWakeup`, `Admission`,
`Leftovers`, `Resubmits`, `Staleness` and `Contents` hold the results about runs, and `Witness` runs in
which limits are reached. `Cards` says in one table what every step does to every job, and from it when
exactly a card appears, waits, runs, becomes ready or failed, and leaves; `CardRuns` says over runs why a
card is what it is; `Answers` gives each request's answer and effect, and each worker's pick, as exact
conditions on the cards that are shown; `Outcomes` ties what Delete answers to what the store answered.

**Storage and restart** (`internal/app/store.go`). `DiskStore` is the startup scan over arbitrary
directory contents, `Recovery` connects it with Recover and with the initial states of the machine,
`Restart` says what becomes of each job directory,
`AtomicFile` is writeFileSync and Save as single file-system steps with a power loss between any two.

**The rate limiter** (`RateLimiter`), **sessions and links** (`TokenMap`, `SessionStore`,
`SessionRuns`, `LinkStore`, `LinkRuns`): classes for the stores, functions for what their methods do,
and histories of calls with failing writes, clock readings and restarts. `SessionLaws` and `LinkLaws`
say in terms of lookups alone what a token is good for, and when it ends. `Server` puts the link
handlers of `internal/app/http.go`, the link store and the manager's machine together, over any number
of lives of the server with crashes in between, and `ShareLinks` proves what a link opens.

**Client addresses**: `Prefixes` is the address arithmetic, `ClientAddr` the proxy list and the walk over X-Forwarded-For.

Inputs of the model: the clock, drawn tokens, the answers of the store, of yt-dlp and ffmpeg, the text
parsers of netip, and the choice among equally old entries (Go's map order). SHA-256 is stood for by
an injective function.

Where comments and code differ, the model follows the code. The Store comment promises atomic
mutations, but Save can fail after its rename (`internal/app/store.go:62-70`), so a Submit that
answers ErrStorage may leave a record. The title worker's comment speaks of a harmless double
finalization (`internal/app/manager.go:575-578`); `RemovalSteps.CheckFinds` shows there is none.

Seven statements one might expect do not hold. For each there is a run or an input that shows it, and
a theorem that says exactly when it does hold:

- Never more than 16 unfinished jobs. The bound is 17 (`Runs.AdmissionBoundOnRuns`), and 16 is passed
  exactly by starting, or reporting on, a job that stopped counting after it was picked
  (`Admission.StepAboveLimit`; both ways are reached: `Witness.SeventeenIsReached`,
  `Witness.SeventeenByReport`).
- A stored record has a card. Exactly the records a failed Submit wrote have none
  (`Leftovers.RecordWithoutCard`, `Witness.RecordIsLeft`).
- The store agrees with memory when no save is under way. The store has a job's last change exactly
  if none of six causes left the job behind: a size List finds changed, markUnpersistable, a save
  skipped for a deleting job, a failed write, a record lost by a failed removal, and Recover's own edits
  (`Staleness.QuietlyStored`, `Staleness.BecomesStale`, `Recovery.RecoveredIsBehind`,
  `Witness.StoreIsBehind`). In contents: a job not left behind is stored as it is, and one left behind
  is not, unless later changes undid the ones the store missed (`Contents.DiskEqualsMemory`,
  `Contents.AgreeIfUndone`).
- A parked title worker has no work. It can miss the download in flight, and nothing else, and
  comes to miss it exactly when that download starts, or reports, after the job had stopped counting
  (`TitleWakeup.OnlyTheFlightIsMissed`, `TitleWakeup.StepMisses`, `Witness.TitleIsMissed`).
- What a client puts in front of the forwarded chain never matters. It decides when the chain holds
  trusted proxies only (`ClientAddr.FrontDecides`, `ClientAddr.FrontIsBelieved`).
- A logout is final. It is until the next restart (`SessionLaws.LogoutEndsNow`), and for good if it
  wrote the file (`SessionLaws.WrittenLogoutEnds`) or nothing had failed to be written before
  (`SessionLaws.LogoutEnds`). A restart answers exactly what the file holds (`SessionLaws.RestartAnswers`),
  so a logout whose write failed is undone (`SessionLaws.FailedLogoutIsUndone`): its error is dropped
  (`internal/app/auth.go:300`).
- A deleted run never comes back. It does exactly when a later start finds a record of it
  (`ShareLinks.DeadMoves`, `ShareLinks.BroughtBackRunOpens`), which a start that finds the store as the
  server left it never does (`ShareLinks.NothingComesBack`). A power loss may bring one back: when
  Remove deleted the directory but could not sync its parent, the repeated Delete finds no directory
  and answers nil without a sync (`internal/app/store.go:174-186`).

## Model

| member | source | states |
|---|---|---|
| RegistrySteps.StepKeeps | internal/app/manager.go:84-702 | Every step of every thread keeps the manager's invariant: ownership, save locks, what each thread knows where it is, removal attempts, the stored records |
| Runs.InitInv | internal/app/manager.go:84-116 | The state after Recover satisfies the invariant |
| Runs.RunInv | internal/app/manager.go:375-409 | The invariant holds in every state of every run |
| Runs.NeverCrashes | internal/app/manager.go:37 | A deleting job always has its attempt at hand, and no attempt's channel is closed twice |
| Runs.NoResurrection | internal/app/manager.go:496-503 | Stored records are those of videos with a card, plus what a failed Submit left; the record of a video with a card was written by the registered object, which was not removed |
| Runs.AdmissionBoundOnRuns | internal/app/manager.go:207-235 | From at most 16 unfinished jobs never more than 17, and while not closing never more than 16 besides the download in flight |
| Runs.ClosedForGood | internal/app/manager.go:343-354 | Once Close has begun no job is added and none goes back into the queue, for the rest of the run |
| Shutdown.NothingRunsAfterClose | internal/app/manager.go:357-371 | After Close's last section, for the rest of the run: the workers stay gone, no shown job is in the pipeline, no download is in flight |
| Shutdown.CloseCanReturn | internal/app/manager.go:343-372 | Whenever a Close has begun and not returned there is a sequence of steps after which it has, whoever owns a job, removes one or holds a save lock |
| Shutdown.ThreadFinishes | internal/app/manager.go:376-409 | While closing, any single worker or save can be run to its end from every reachable state, without setting anybody else back |
| Runs.NoZombieCards | internal/app/manager.go:424-494 | While not closing, a queued card that is not being deleted has a live context, and a running card is the one the download worker runs |
| Runs.ParkedWorkerHasNoWork | internal/app/manager.go:375-422 | A parked download worker means that no job can be picked: no wakeup is lost |
| Admission.StepAboveLimit | internal/app/manager.go:424-445 | From at most 16 a step ends above 16 exactly if 16 count and the download worker starts, or reports on, a shown job that does not count |
| Admission.StepCount | internal/app/manager.go:207-235 | Such a step adds exactly one; any other leaves the count no higher than it was, or within the limit |
| Admission.StartRevives | internal/app/manager.go:424-431 | Starting a download adds to the count exactly when its job is shown and had stopped counting |
| Admission.ReportRevives | internal/app/manager.go:434-450 | The same for a progress report |
| Leftovers.RecordWithoutCard | internal/app/manager.go:165-173 | A record without a card exists exactly if a Submit of that video wrote it and answered ErrStorage, and no later Submit of it registered a job |
| Leftovers.LeftoverHistory | internal/app/manager.go:165-173 | The machine's set of leftovers is exactly that history |
| Resubmits.StoredAfterDelete | internal/app/manager.go:504-550 | After a Delete answered nil, any record of that video in any later state was written by a Submit made when the deleted object had left the registry: it is that of the job this Submit registered, or what it left when it failed |
| Resubmits.NewestIsRegistered | internal/app/manager.go:160-173 | The registered object of a video is the latest one of that video |
| Staleness.BecomesStale | internal/app/manager.go:676-702 | A job whose current version is stored, or being saved, stops being so exactly by one of five causes, and only if nobody else was about to save it (a job's version counts its changes) |
| Staleness.OnlyASaveStores | internal/app/manager.go:676-691 | A job's current version comes to be stored only by a save that was under way |
| Staleness.StoredSavingOrLeftBehind | internal/app/manager.go:672-691 | In every state of every run: a job's current version is stored, or being saved, or else, and only then, the job was left behind by one of the causes with no save since |
| Staleness.QuietlyStored | internal/app/manager.go:672-702 | With no save under way the store has a card's current version exactly if the card was not left behind |
| Contents.StepChanges | internal/app/manager.go:424-489 | A step that gives a job a new version changes what the job says, by one version; a step that changes what it says gives it a new version |
| Contents.RecordIsPast | internal/app/manager.go:676-691 | What is stored of a job is exactly what the job was when it had the record's version |
| Contents.DiskEqualsMemory | internal/app/manager.go:672-702 | With no save under way: the record of a card that was not left behind equals the card; a card that was left behind has no record, or one that lacks at least one change, and that differs from it unless it lacks two or more |
| Contents.AgreeIfUndone | internal/app/manager.go:672-702 | Card and record agree exactly if the card is again what it was at an earlier moment, any at which it had the record's version |
| Cards.JobAfter | internal/app/manager.go:94-702 | Every step does to every job exactly what one table over the actions says, field by field |
| Cards.BecomesReady | internal/app/manager.go:453-489 | A card becomes ready exactly when the worker that owns the shown job ends its download successfully |
| Cards.ReadyCard | internal/app/manager.go:480-488 | It then has the answered size and no error, the found title unless that is empty, the found duration if positive |
| Cards.FailedDownload | internal/app/manager.go:460-472 | A failed download leaves a shown card failed with the answered message, unchanged if cancelled while closing; a found title only fills an empty one |
| Cards.BecomesFailed | internal/app/manager.go:268-702 | A card becomes failed exactly by one of six steps: failed download, unsupported video, unsaved result, vanished file, failed removal, interrupted by Close |
| Cards.FailedCard | internal/app/manager.go:268-702 | It then shows the message of that cause; only a failed download may give it a title |
| Cards.BecomesQueued | internal/app/manager.go:207-225 | A card waits again exactly by a Submit or Retry of its video, while it is shown and failed, not closing, and fewer than 16 count; error and size are cleared, the title stays |
| Cards.BecomesRunning | internal/app/manager.go:424-450 | A card's status becomes downloading, processing or verifying exactly when its download worker begins or reports that stage; nothing else of the job changes |
| Cards.FlagsAfter | internal/app/manager.go:301-702 | Of every object: when it is marked and unmarked deleting, cancelled, active, fetching, given up for titles, and when its place in the queue changes |
| Cards.CardLeaves | internal/app/manager.go:542-546 | A card disappears exactly when the removal of that very job, confirmed by the store, ends |
| Cards.CardAppears | internal/app/manager.go:160-178 | A card appears exactly by a Submit of a video without one, not closing, with fewer than 16 counting and the record saved: queued, at the back, otherwise empty |
| CardRuns.ReadyHasOrigin | internal/app/manager.go:453-489 | In every run each ready card was recovered as ready, or has been ready since the end of its own successful download |
| CardRuns.FailedHasReason | internal/app/manager.go:268-702 | Each failed card was recovered so, or has shown its message since a step that failed it with that message |
| CardRuns.DeletingIsCancelled | internal/app/manager.go:320-322 | In every state of every run a job being deleted has a context that is done |
| CardRuns.GivenUpForGood | internal/app/manager.go:659-663 | A job whose title was given up is never picked by a title worker again in that run |
| CardRuns.FetchFails | internal/app/manager.go:649-657 | After a failed fetch the worker leaves exactly if the job is cancelled or the manager closes, gives up after the third, and else waits |
| CardRuns.WaitEnds | internal/app/manager.go:652-657 | An uninterrupted wait is followed by the next fetch |
| CardRuns.ThreeFetches | internal/app/manager.go:614-658 | A title worker's n-th fetch follows n - 1 failed ones; it never makes a fourth |
| CardRuns.GivesUpAfterThree | internal/app/manager.go:649-663 | It gives a job up after exactly three failed fetches |
| CardRuns.UnsavedResultFails | internal/app/manager.go:474-492 | When a worker could not save its result, its next step leaves the card, if still shown, failed as unpersistable |
| Answers.SubmitAnswers | internal/app/manager.go:121-180 | Submit's answer, for each of seven cases told apart by the cards that are shown: closed, leaving, known, failed, full, unsaved, new |
| Answers.SubmitRequeues | internal/app/manager.go:145-158 | A failed card with fewer than 16 counting: it is newly in the queue, at the back, with a live context, a save started, sleepers woken, and counts; nothing else changes |
| Answers.SubmitEnters | internal/app/manager.go:160-178 | No card, fewer than 16 counting, record saved: a new card at the back, its record in the store, sleepers woken |
| Answers.SubmitRefused | internal/app/manager.go:124-164 | Closed, known or full: the answer says so and nothing changes; a card being deleted: the caller waits for that removal |
| Answers.SubmitUnsaved | internal/app/manager.go:168-172 | No card, room, but the save failed: the storage answer and no card |
| Answers.RetryAnswers | internal/app/manager.go:182-205 | Requeued exactly if not closing, the card is shown and failed, and fewer than 16 count; otherwise the fitting refusal and no change |
| Answers.DeleteAnswers | internal/app/manager.go:306-331 | No card: missing. Deleting: joined. Otherwise marked and cancelled with a fresh attempt, finalized by this caller exactly if no worker has the job |
| Answers.ListsReady | internal/app/manager.go:258-265 | List checks exactly the ready cards |
| Answers.PicksFirst | internal/app/manager.go:380-422 | The download worker takes the waiting card with the smallest sequence number, and sleeps exactly if no card waits |
| Answers.SleepsOnEmptyQueue | internal/app/manager.go:375-422 | In every run, while the download worker sleeps no card waits |
| Answers.PicksTitle | internal/app/manager.go:557-603 | A title worker takes the first unfinished shown card without a title that nobody fetches and that was not given up, and sleeps exactly if there is none |
| Outcomes.DeleteTellsTheStore | internal/app/manager.go:518-549 | In every run a Delete that was answered, nil or an error, was answered what the store's Remove had answered for its attempt |
| Queue.AdmissionBound | internal/app/manager.go:210-235 | The admission invariant bounds the count by 17, and by 16 outside the in-flight slot |
| CalmSteps.CallerQueue | internal/app/manager.go:121-225 | A caller's step enqueues one job at the back, below the limit and with a wakeup, or leaves the queue calm |
| Deletion.OwnedIsRegistered | internal/app/manager.go:375-422 | A job a worker owns is the registered object of its video and flagged as owned by that worker, so the "replaced" branches are dead |
| Deletion.OneActiveJob | internal/app/manager.go:29-34 | At most one job is active, and it is the download worker's |
| Deletion.OwnersAreExclusive | internal/app/manager.go:552-603 | Two workers share a job only as download and title worker; the title workers own distinct jobs |
| Deletion.RemoveRunsAlone | internal/app/manager.go:504-518 | While a removal holds the save lock, no worker owns the job, nobody writes its record and nobody else removes it |
| Deletion.ClosedOnce | internal/app/manager.go:41-47 | Only its own closer completes an attempt, once; afterwards it never changes |
| RemovalSteps.CheckFinds | internal/app/manager.go:504-514 | Whoever finalizes finds the job registered and deleting with an attempt: the early return is unreachable |
| Deletion.DeleteNilMeansRemoved | internal/app/manager.go:301-341 | Delete answered nil: the files of that incarnation were removed or absent, and its object stays out of the registry for the rest of the run |
| Deletion.RegisteredOnce | internal/app/manager.go:504-550 | An object that left the registry never returns to it |
| Deletion.OpenAttemptKeepsCard | internal/app/manager.go:242-243 | Until an attempt is completed its job keeps its card, or is just about to be confirmed removed |
| Deletion.SaveIsFresh | internal/app/manager.go:672-691 | A write is for a registered, unremoved object, never over another object's record, at least as new as the edit it was started for, and leaves every other record as it is |
| Deletion.RecordsNeverGetOlder | internal/app/manager.go:672-691 | Of one job, what is stored later in a run is never an older version than what was stored before, also when the record was lost in between |
| Deletion.OnlySubmitWritesUnregistered | internal/app/manager.go:165-173 | Only a Submit of that very video writes a record for a video without a card |
| Overtaking.StepAhead | internal/app/manager.go:411-422 | The set of queued jobs ahead of a waiting job never grows |
| Overtaking.PickAhead | internal/app/manager.go:411-422 | Every pick of another job takes one out of that set |
| Overtaking.BoundedOvertaking | internal/app/manager.go:217 | While a job keeps its place, others are picked at most as often as jobs were ahead of it at the start |
| Progress.RankNeverRises | internal/app/manager.go:301-341 | The measure of an open removal (owners' steps left, finalizer's steps left, lock holder) is raised by no step of any thread |
| Liveness.HolderCanMove | internal/app/manager.go:496-503 | Whoever holds a save lock has a step that needs no other lock: no reachable state is a lock deadlock |
| Liveness.SomeStepLowers | internal/app/manager.go:396-407 | Until the attempt closes some possible step lowers its measure |
| Liveness.RemovalCanComplete | internal/app/manager.go:504-550 | From every reachable state an open attempt can be closed within as many steps as the measure says |
| TitleWakeup.OnlyTheFlightIsMissed | internal/app/manager.go:552-603 | When a title worker is parked and no broadcast is due, the only job it could work on is the one being downloaded |
| TitleWakeup.StepMisses | internal/app/manager.go:424-450 | When a title worker sleeps, no broadcast is due and there is no title to fetch, a step ends in missed work exactly if the download worker starts, or reports on, a shown job that needs a title and had stopped counting |
| Witness.SeventeenIsReached | internal/app/manager.go:424-426 | A run from an empty registry that reaches 17 unfinished jobs |
| Witness.SeventeenByReport | internal/app/manager.go:440-445 | Another such run, in which every download that starts still counts: its title cannot be saved, and a report revives the failed job |
| Witness.TitleIsMissed | internal/app/manager.go:634-646 | A run in which both title workers are parked, no broadcast is due, and a job lacks a title |
| Witness.RecordIsLeft | internal/app/store.go:62-70 | A run that ends with a record and no card |
| Witness.StoreIsBehind | internal/app/manager.go:635-641 | A run that ends with nothing under way, a failed card, and the store still holding it as queued |
| Manager.JobState.Conclude | internal/app/manager.go:460-488 | A finished download makes the job ready or failed, with the title and duration rules of each case (for the card: `Cards.BecomesReady`, `Cards.ReadyCard`, `Cards.FailedDownload`) |
| Manager.Manager.Recover | internal/app/manager.go:87-116 | The recovery loop registers one object per scanned job, in order, with the status rules of a restart (for each directory: `Restart.StartedStatus`, `Restart.StartedCard`) |
| Manager.Manager.UnfinishedCount | internal/app/manager.go:227-235 | The loop counts exactly the unfinished jobs that are not being deleted |
| Manager.Manager.RequeueLocked | internal/app/manager.go:207-225 | Refused exactly at the limit; otherwise the job goes to the back of the queue with a fresh context |
| Manager.Manager.SubmitOnce | internal/app/manager.go:121-180 | One pass of Submit's loop, every branch: closed, being deleted, known, requeued, full, storage failure, new (when each is taken, and to what effect: `Answers.SubmitAnswers` and the lemmas beside it) |
| Manager.Manager.Retry | internal/app/manager.go:182-205 | Retry's branches and their answers (`Answers.RetryAnswers`) |
| Manager.Manager.PickQueued | internal/app/manager.go:411-422 | The search returns a pickable job with the smallest sequence number, or none exactly if there is none |
| Manager.Manager.ClaimQueued | internal/app/manager.go:380-390 | Picking and marking active happen in one section |
| Manager.Manager.PickTitle | internal/app/manager.go:588-603 | The same for jobs that need a title |
| Manager.Manager.ClaimTitle | internal/app/manager.go:557-568 | Picking and marking fetching happen in one section |
| Manager.Manager.BeginDownload | internal/app/manager.go:424-431 | The job becomes downloading unconditionally |
| Manager.Manager.Report | internal/app/manager.go:434-450 | A report moves a registered job's status, and asks for a save exactly on a change |
| Manager.Manager.FinishDownload | internal/app/manager.go:453-489 | The download's answer is dropped for a replaced or deleting job and for a cancelled download at shutdown, else recorded (`Cards.BecomesReady`, `Cards.FailedDownload`) |
| Manager.Manager.ReleaseDownload | internal/app/manager.go:396-403 | The epilogue finishes the removal exactly if no title worker still owns the deleting job |
| Manager.Manager.TitleFetched | internal/app/manager.go:615-631 | A title is taken only by a registered, shown job that has none |
| Manager.Manager.TitleUnsupported | internal/app/manager.go:633-647 | An unsupported video fails a job only while it is still queued |
| Manager.Manager.TitleExhausted | internal/app/manager.go:659-663 | After the last attempt the job is not picked for its title again |
| Manager.Manager.ReleaseTitle | internal/app/manager.go:573-580 | The title worker's epilogue, symmetric to the download worker's |
| Manager.Manager.SnapshotToSave | internal/app/manager.go:679-685 | A save is skipped exactly for replaced or deleting jobs, else it takes the current fields |
| Manager.Manager.MarkUnpersistable | internal/app/manager.go:693-702 | A job whose result could not be saved fails, unless replaced or deleting |
| Manager.Manager.Delete | internal/app/manager.go:306-331 | Delete's first section: missing, joined, awaited or finalized here (`Answers.DeleteAnswers`) |
| Manager.Manager.Unregister | internal/app/manager.go:542-546 | A removed job leaves the registry, and nothing else does |
| Manager.Manager.Restore | internal/app/manager.go:524-537 | A failed removal gives the card back, failed if it was unfinished |
| Manager.Manager.FinalizeDeletion | internal/app/manager.go:504-550 | Run undisturbed it either takes the job out of the registry or gives it back as a card that is not unfinished, and completes the job's open attempt with that outcome |
| Manager.Manager.ReadyList | internal/app/manager.go:258-265 | The list holds exactly the ready jobs |
| Manager.Manager.ListCheck | internal/app/manager.go:268-284 | A vanished file fails the job, a present one updates and adds its size; readiness is not checked again |
| Manager.Manager.InterruptAll | internal/app/manager.go:357-369 | Exactly the shown jobs left in the pipeline become failed, and exactly they are returned for saving |
| DiskStore.DecodeJob | internal/app/store.go:125-139 | A record is valid exactly if it names its directory, has a creation time and a known status; otherwise it yields a failed card under the directory's ID |
| DiskStore.SaveRoundTrip | internal/app/store.go:53-61 | A saved job is read back unchanged exactly if it has a creation time |
| DiskStore.Scan | internal/app/store.go:141-168 | The scan loop's answer for any listing |
| DiskStore.ScanFails | internal/app/store.go:156-163 | It fails exactly if some job directory's record cannot be read |
| DiskStore.ScanNames | internal/app/store.go:150-167 | One job per job directory, in order, under the directory's name |
| Recovery.RecoverInOrder | internal/app/manager.go:94-113 | Recover's result in closed form: one object per scanned job, consecutive sequence numbers |
| Recovery.RecoveredIsBehind | internal/app/manager.go:94-113 | After Recover a card is stored exactly if it had a record and Recover did not edit it |
| Recovery.RestartIsSound | internal/app/manager.go:84-116 | For any disk a successful scan and Recover give unique matching IDs, statuses queued, ready or failed, increasing sequence numbers, ready only with a non-empty file of the recorded size, and a state that runs start from |
| Restart.StartedStatus | internal/app/manager.go:94-113 | For every job directory: the card is queued exactly if its record says queued, ready exactly if it says ready and the file is there and not empty, failed in every other case |
| Restart.StartedCard | internal/app/store.go:125-168 | Its other fields: kept from a proper record, with the message and size of each case; an improper record keeps title and creation time if only the status is unknown |
| Restart.StartedFresh | internal/app/manager.go:110-112 | The card has a live context, no owner, no removal, three title attempts left and its own sequence number |
| Restart.StartedInOrder | internal/app/manager.go:111 | Cards wait in the order of their directories |
| Restart.QueuedResumes | internal/app/manager.go:84-113 | A job saved as queued waits again unchanged and can be picked |
| Restart.CardsAreDirectories | internal/app/store.go:150-167 | There are no cards but those of job directories |
| AtomicFile.CrashLeavesOldOrNew | internal/app/store.go:73-96 | A crash after any prefix of writeFileSync leaves the old or the complete new contents |
| AtomicFile.WriteAnswers | internal/app/store.go:75-96 | Success means the new contents are in place, an error that the old ones still are |
| AtomicFile.OthersUntouched | internal/app/store.go:75-96 | No step of a write changes another file |
| AtomicFile.SaveIsDurable | internal/app/store.go:53-71 | After a successful Save no crash brings the old record back; a failed one has written exactly if the rename was done |
| RateLimiter.Limiter.PruneKey | internal/app/auth.go:390-400 | The compaction keeps the attempts inside the window, in order |
| RateLimiter.Limiter.CheckKey | internal/app/auth.go:402-430 | The counting loop with its zero-time sentinel |
| RateLimiter.Limiter.Attempt | internal/app/auth.go:354-388 | What one attempt answers and records; other keys are untouched |
| RateLimiter.ListIsWindow | internal/app/auth.go:385-400 | With a clock that never goes back, the pruned list equals the complete log cut to the window |
| RateLimiter.SameVerdict | internal/app/auth.go:366-383 | Every attempt is judged as the complete log would judge it |
| RateLimiter.Bounded | internal/app/auth.go:402-430 | Every interval as long as the window holds at most maxFailures failures and maxAttempts attempts of a key |
| RateLimiter.AllowedExactly | internal/app/auth.go:366-430 | An attempt is let through exactly if fewer than maxFailures failures and fewer than maxAttempts attempts were ever recorded in the window that ends now |
| RateLimiter.RecordedExactly | internal/app/auth.go:370-389 | It is recorded exactly if it was let through and failed, or counts although it succeeded |
| RateLimiter.OldestIsMin | internal/app/auth.go:403-416 | The sentinel search finds the oldest entry |
| RateLimiter.OldestCounts | internal/app/auth.go:417-428 | A full window gives a positive wait: the one-second fallbacks are unreachable |
| RateLimiter.ExactWait | internal/app/auth.go:417-429 | A denied key is denied at every instant before the wait is over and allowed from then on |
| RateLimiter.DenialLeavesNoTrace | internal/app/auth.go:359-365 | A denied attempt records nothing |
| RateLimiter.EarlyAttemptsLeaveNoTrace | internal/app/auth.go:359-374 | Attempts before the wait is over are denied and change nothing |
| RateLimiter.DeniedUntilWaitIsOver | internal/app/auth.go:366-430 | After a denial, whatever attempts follow before its wait is over, on this key or others, the key's next attempt is let through exactly if the wait is over |
| RateLimiter.RetryAfterSuffices | internal/app/http.go:327-331 | The next attempt of a client that waits for Retry-After is let through, and the header asks for at most a second too much |
| TokenMap.LoadedReloads | internal/app/auth.go:209-215 | Loading a file of distinct entries keeps or drops each by its expiry alone |
| TokenMap.SameFromIsLive | internal/app/auth.go:273-281 | Two maps answer alike from a time on exactly if their live entries agree from then on |
| SessionStore.Store.PersistLocked | internal/app/auth.go:223-237 | The file written stands for the map, whatever the order of iteration |
| SessionStore.Store.PruneLocked | internal/app/auth.go:311-322 | Exactly the expired sessions go; the file is written if any did |
| SessionStore.Store.MakeRoom | internal/app/auth.go:246-255 | At the cap an oldest session goes |
| SessionStore.Store.Create | internal/app/auth.go:239-264 | Prune, evict, insert, and take back what could not be written |
| SessionStore.Store.Lookup | internal/app/auth.go:266-282 | The answer, and the removal of an expired session (`SessionLaws.SessionLives`, `SessionLaws.AskKeeps`) |
| SessionStore.Store.Revoke | internal/app/auth.go:289-301 | Logout drops that session only (`SessionLaws.LogoutEnds`, `SessionLaws.OthersUnchanged`) |
| SessionStore.Store.RevokeAll | internal/app/auth.go:303-309 | Every session goes (`SessionLaws.LogoutEndsNow`) |
| SessionStore.Store.Load | internal/app/auth.go:194-221 | What a file yields under a fingerprint; an unreadable one changes nothing |
| SessionRuns.SessionCap | internal/app/auth.go:20-22 | Never more than 20 sessions, in memory or on file, over every history, whatever writes fail |
| SessionRuns.EvictionIsFair | internal/app/auth.go:246-255 | A live session displaced by a login: the store was full and no survivor is older |
| SessionRuns.ApplySync | internal/app/auth.go:223-322 | Without write failures every call keeps memory and file alike for lookups |
| SessionRuns.RestartIsTransparent | internal/app/auth.go:194-221 | After any history without write failures a restart under the same password changes no later answer |
| SessionRuns.SameFuture | internal/app/auth.go:241-329 | Two stores that answer alike go on doing so through any sequence of calls, with or without write failures |
| SessionRuns.RestartIsInvisible | internal/app/auth.go:194-329 | After such a restart and any further calls every lookup answers as it would have without the restart |
| SessionRuns.PasswordChangeDropsAll | internal/app/auth.go:170-173 | Under another fingerprint no session is loaded |
| SessionRuns.LoadIsRestart | internal/app/auth.go:204-219 | Load of a file this program wrote is such a restart |
| SessionLaws.LoginAnswers | internal/app/auth.go:241-264 | A login answered with a time is answered by lookups for thirty days and not after; one whose write failed by none |
| SessionLaws.OthersUnchanged | internal/app/auth.go:241-329 | A call for other tokens changes no later answer of this one, but for the eviction; a lookup none at all |
| SessionLaws.AskKeeps | internal/app/auth.go:266-282 | A lookup keeps the session it answers and removes an expired one |
| SessionLaws.ChangesAreWritten | internal/app/auth.go:223-329 | A call whose writes succeed and that changes the sessions leaves exactly them in the file |
| SessionLaws.RestartAnswers | internal/app/auth.go:194-221 | After a restart a lookup is answered exactly what the file holds under the same fingerprint and is live |
| SessionLaws.LogoutEnds | internal/app/auth.go:290-301 | After a logout, with all writes made until then, no lookup at any later time is answered until the token is drawn again, through restarts under the same password |
| SessionLaws.LogoutEndsNow | internal/app/auth.go:290-309 | After a logout, or one of all, none is until the next restart, whatever writes fail |
| SessionLaws.WrittenLogoutEnds | internal/app/auth.go:290-309 | After a logout that wrote the file none is, through restarts under any password and whatever writes fail later |
| SessionLaws.FailedLogoutIsUndone | internal/app/auth.go:299-300 | A logout whose write failed, and a restart after which the session is answered again |
| SessionLaws.SessionLives | internal/app/auth.go:239-282 | A session is answered from its login until its thirty days are over, whatever is called in between and fails, unless it is dropped, evicted, drawn again, or the server restarts |
| SessionLaws.SessionSurvives | internal/app/auth.go:194-282 | With all writes made, through restarts under the same password too |
| LinkStore.Store.PersistLocked | internal/app/links.go:66-80 | The file written stands for the map |
| LinkStore.Store.Prune | internal/app/links.go:152-170 | Exactly the expired links go |
| LinkStore.Store.LinksOf | internal/app/links.go:88-93 | The loop collects exactly the video's links |
| LinkStore.Store.MakeRoom | internal/app/links.go:94-103 | At the cap an oldest link of that video goes |
| LinkStore.Store.Issue | internal/app/links.go:82-118 | Prune, evict, insert, and take back what could not be written |
| LinkStore.Store.Lookup | internal/app/links.go:120-134 | The link's target while it is live |
| LinkStore.Store.Revoke | internal/app/links.go:136-150 | Exactly the video's links go (`LinkLaws.WithdrawAnswers`, `LinkLaws.RevocationEnds`) |
| LinkStore.Store.Load | internal/app/links.go:42-64 | What a file yields; an unreadable one changes nothing |
| LinkRuns.LinkCap | internal/app/links.go:10-13 | Never more than 8 links for one video, in memory or on file, whatever writes fail |
| LinkRuns.EvictionIsFair | internal/app/links.go:88-103 | A live link displaced by an issue belongs to the same video, which had 8, and no survivor of that video is older; other videos lose none |
| LinkRuns.ApplySync | internal/app/links.go:66-170 | Without write failures every call keeps memory and file alike for lookups |
| LinkRuns.RestartIsTransparent | internal/app/links.go:42-64 | After any history without write failures a restart changes no later answer |
| LinkRuns.SameFuture | internal/app/links.go:83-170 | Two stores that answer alike go on doing so through any sequence of calls, with or without write failures |
| LinkRuns.RestartIsInvisible | internal/app/links.go:42-170 | After such a restart and any further calls every lookup answers as it would have without the restart |
| LinkRuns.LoadIsRestart | internal/app/links.go:52-63 | Load of a file this program wrote is such a restart |
| LinkLaws.ShareAnswers | internal/app/links.go:82-118 | An issued link is answered with its run for 24 hours and not after; a failed issue by none |
| LinkLaws.OthersUnchanged | internal/app/links.go:82-170 | A call for other tokens and videos changes no later answer of this link, but for the eviction |
| LinkLaws.ChangesAreWritten | internal/app/links.go:66-170 | A call whose writes succeed and that changes the links leaves exactly them in the file |
| LinkLaws.WithdrawAnswers | internal/app/links.go:137-150 | A revocation ends every link of the video and no other |
| LinkLaws.RestartAnswers | internal/app/links.go:42-64 | After a restart a lookup is answered exactly what the file holds and is live |
| LinkLaws.RevocationEnds | internal/app/links.go:136-150 | After a revocation no lookup names the video until a link of it is issued again or the server restarts |
| LinkLaws.WrittenRevocationEnds | internal/app/links.go:136-150 | After one that wrote the file, through every restart |
| LinkLaws.LinkLives | internal/app/links.go:82-134 | A link is answered from its issue until its day is over, unless its video is revoked, it is evicted, drawn again, or the server restarts |
| Server.StepDated | internal/app/manager.go:165 | A job object never changes its video or its creation time |
| Server.ManagerInv | internal/app/manager.go:84-116 | The manager's invariant holds in every state of every history of the server, through crashes at any point and restarts |
| Server.AnyStart | internal/app/links.go:42-64 | Whatever registry was recovered and whatever links were loaded, a history of the server can start there |
| ShareLinks.WebStepOk | internal/app/http.go:497-585 | Every step of the server keeps: each job, link and request under way names its run by video and creation time, and a request past the check goes to the job of its run |
| ShareLinks.RestartIsKnown | internal/app/links.go:42-64 | Loading the file is one of the restarts the server's histories allow |
| ShareLinks.LinksWereRead | internal/app/http.go:503-516 | Every link and every request goes back to a step at which handleShareLink read a job of that run as the video's ready job, or to a link from before the history |
| ShareLinks.LinkOpensItsRun | internal/app/http.go:573-584 | A request that the check lets through goes to a job of the very run its link was issued for, if no two runs of a video are created at the same time |
| ShareLinks.OpensExactlyItsRun | internal/app/http.go:573-584 | Under the same condition the check lets a request through exactly if the run its link was issued for is the registered, ready job of its video |
| ShareLinks.DeadMoves | internal/app/manager.go:84-116 | A run without a registered job has one again exactly after a start that finds a record of it |
| ShareLinks.NothingComesBack | internal/app/manager.go:496-503 | A start that finds the store as the server left it finds no record of such a run |
| ShareLinks.BroughtBackRunOpens | internal/app/store.go:174-186 | A history in which a start finds a record of such a run, and an old link opens it |
| ShareLinks.DeletedRunNeverOpens | internal/app/http.go:570-585 | Once a Delete returned nil no request with a link of the deleted run gets past the check, however the issue raced with the revocation, whatever links are loaded later, and through all restarts but those that bring the run back |
| ShareLinks.DeletedRunIsGone | internal/app/manager.go:496-503 | Nor does the store hold a record of that run again |
| ShareLinks.AbsentRunNeverOpens | internal/app/http.go:573-584 | With nothing assumed about links: when a video has no job of a creation time and none is created with it later, no request that names it gets past the check, also with links that a failed revocation left on file |
| Prefixes.MaskedContains | internal/app/http.go:114 | Masking a prefix changes no membership |
| Prefixes.PlainKeepsMembers | internal/app/http.go:103-113 | The IPv4 form of a mapped prefix of length 96 + n has the same IPv4 members (section 2.5.5.2 of RFC 4291) |
| Prefixes.ShortPrefixEscapes | internal/app/http.go:104-111 | A mapped prefix shorter than 96 bits reaches outside the mapped range |
| Prefixes.ContainsIsBlock | internal/app/http.go:168-175 | A prefix contains exactly the zoneless addresses of its family in one aligned block |
| Prefixes.UnmapIsExact | internal/app/http.go:96-148 | Unmapping turns exactly the mapped addresses into IPv4 and leaves the others |
| ClientAddr.ParseTrustedProxies | internal/app/http.go:80-117 | Refused exactly for an entry that is neither blank nor an address nor a range, or is a mapped range shorter than 96 bits; otherwise the list trusts exactly: the plain form of each bare address, the members of each range, and for a mapped range the IPv4 addresses whose mapped form it contains |
| ClientAddr.TrustedProxy | internal/app/http.go:168-175 | True exactly if some prefix contains the address |
| ClientAddr.ClientIP | internal/app/http.go:119-156 | The loop computes the chain's rightmost entry that is no trusted proxy, or the peer |
| ClientAddr.ClientIsExact | internal/app/http.go:119-156 | Without naming the walk: the peer unless it is trusted and the chain has an entry that parses and is not trusted with only trusted ones to its right; then that entry |
| ClientAddr.JoinOfSplit | internal/app/http.go:133-137 | Splitting loses nothing: no entry holds a comma, and joined again they are the header |
| ClientAddr.TrimIsExact | internal/app/http.go:88 | Trimming cuts the spaces at both ends and nothing else |
| ClientAddr.SplitOfJoin | internal/app/http.go:133-142 | Joining header lines and splitting again yields the entries line by line |
| ClientAddr.ForwardedIsUntrusted | internal/app/http.go:143-154 | The resolved entry is no trusted proxy and all entries right of it are |
| ClientAddr.PrependedLines | internal/app/http.go:119-122 | Once the tail holds an untrusted or malformed entry, header lines put in front change nothing |
| ClientAddr.PrependedInLine | internal/app/http.go:133-137 | Nor do entries put in front within the first line |
| ClientAddr.FrontInLineDecides | internal/app/http.go:143-155 | Within the first line too, the text in front of an all-trusted chain decides alone |
| ClientAddr.FrontIsBelieved | internal/app/http.go:143-155 | A chain of one trusted proxy, and a line in front of it that changes the answer |
| ClientAddr.FrontDecides | internal/app/http.go:143-155 | If the tail is all trusted proxies, the lines in front decide alone |

## Left out

- ShareLinks.DeletedRunNeverOpens: speaks of the check in handlePublicMedia. A request that passed its check before the Delete returned opens the file later by video ID, and may then find that of a new run.
- ShareLinks.DeadMoves: which unsynced directory changes a power loss undoes is not modelled; a start may find any record that carries the video and creation time of an earlier run.
- Server.BootStep: a start whose Scan fails ends the program and is no step. Links are loaded as any part of those ever issued, which covers every state of the file.
- Liveness.RemovalCanComplete: gives a path, not a scheduler; that threads are run, and that downloads react to a cancelled context, is assumed of the Go runtime and the pipeline.
- Liveness.SomeStepLowers: the lowering step may be the return of a foreign call, with the answer that lets the caller go on.
- RateLimiter.Limiter.CheckKey: differences of times do not saturate; that matters only for limits that are not positive, when the code subtracts the zero time.
- Recovery.RestartIsSound: takes from the file system that a directory lists each name once.
- DiskStore.Scan: Store.Load, OpenVideo and VideoSize are not modelled; what VideoSize answers is an input of Recover and List.
- TokenMap.LoadedReloads: files with repeated hashes, which this program does not write, are covered by Load's own contract only.
- Manager.Manager.SubmitOnce: Submit's wait for a removal and its two-minute patience are steps of JobMachine (SubmitWake), as is Delete's wait (DeleteWake).
- Manager.Manager.Report: stage, progress and the known flag are display fields and not modelled; views, sorting and the total of List are left to the caller.
- JobMachine: taking a save lock and the section that follows are one step, since nothing observable lies between; the snapshots of the job's context that workers take are not modelled, and a context counts as done when its job is cancelled or the manager closes.
- Timestamps are integers and durations reals; sequence numbers do not wrap at 64 bits.
- External programs, the download pipeline, cryptography, HTTP plumbing, JSON text, cookies, routing, the web client and configuration.
- URL acceptance, file names for downloads, view formatting and Store.Total: easy members that add little beside the rest.
