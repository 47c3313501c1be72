/**
  What the manager's global mutex guards, as a value, and one function for each critical
  section of internal/app/manager.go. The thread machine (JobMachine) is built from these
  functions and the class Manager is proved against them.
 */
module JobCore {
  import opened Model

  type Oid = nat  // identity of a jobState object, distinct from the video ID
  type Aid = nat  // identity of a removalAttempt object

  /** One jobState object. `ver` counts the changes of the embedded Job. */
  datatype JobRec = JobRec(
    job: Job,
    order: nat,
    cancelled: bool,
    active: bool,
    fetching: bool,
    deleting: bool,
    titleTries: nat,
    removal: Option<Aid>,
    ver: nat)

  /** `objs` lists every jobState ever registered; `reg` is the registry (m.jobs). */
  datatype Core = Core(objs: seq<JobRec>, reg: map<Id, Oid>, lastSeq: nat, closing: bool)

  predicate Registered(c: Core, o: Oid) {
    o < |c.objs| && c.objs[o].job.id in c.reg && c.reg[c.objs[o].job.id] == o
  }

  predicate RegOk(c: Core) {
    forall id | id in c.reg :: c.reg[id] < |c.objs| && c.objs[c.reg[id]].job.id == id
  }

  /** The job's context is done: cancelled itself, or through the manager's context. */
  predicate CtxDone(c: Core, o: Oid)
    requires o < |c.objs|
  {
    c.objs[o].cancelled || c.closing
  }

  function SetObj(c: Core, o: Oid, r: JobRec): Core
    requires o < |c.objs|
  {
    c.(objs := c.objs[o := r])
  }

  /** The version counts the changes of the embedded Job. */
  function Bump(ver: nat, j: Job, j': Job): nat {
    if j' == j then ver else ver + 1
  }

  /** An assignment to fields of the embedded Job. */
  function Put(r: JobRec, j: Job): JobRec {
    r.(job := j, ver := Bump(r.ver, r.job, j))
  }

  function Fail(r: JobRec, msg: string): JobRec {
    Put(r, r.job.(status := Failed, error := msg))
  }

  // ---- admission ----

  predicate Counts(r: JobRec) {
    !r.deleting && Unfinished(r.job)
  }

  /** The videos counted by unfinishedLocked. */
  function UnfinishedIds(c: Core): set<Id> {
    set id | id in c.reg && c.reg[id] < |c.objs| && Counts(c.objs[c.reg[id]])
  }

  function Requeue(c: Core, o: Oid): Core
    requires o < |c.objs|
  {
    var r := c.objs[o];
    var r' := Put(r, r.job.(status := Queued, error := "", size := 0)).(order := c.lastSeq + 1, cancelled := false);
    SetObj(c, o, r').(lastSeq := c.lastSeq + 1)
  }

  function NewRec(id: Id, now: Time, order: nat): JobRec {
    JobRec(Job(id, "", 0.0, Queued, 0, now, ""), order, false, false, false, false, 0, None, 0)
  }

  function Register(c: Core, id: Id, now: Time): Core {
    Core(c.objs + [NewRec(id, now, c.lastSeq + 1)], c.reg[id := |c.objs|], c.lastSeq + 1, c.closing)
  }

  datatype SubmitOut =
    | SubmitClosed
    | SubmitAwait(att: Option<Aid>)
    | SubmitKnown(o: Oid)
    | SubmitRequeued(o: Oid)
    | SubmitBusy
    | SubmitStorage
    | SubmitNew(o: Oid)

  /** One pass of Submit's loop; `saved` is the answer of store.Save for a new job. */
  function Submit(c: Core, id: Id, now: Time, saved: bool): (Core, SubmitOut)
    requires RegOk(c)
  {
    if c.closing then (c, SubmitClosed)
    else if id in c.reg then
      var o := c.reg[id];
      var r := c.objs[o];
      if r.deleting then (c, SubmitAwait(r.removal))
      else if !r.job.status.Failed? then (c, SubmitKnown(o))
      else if |UnfinishedIds(c)| >= MAX_UNFINISHED then (c, SubmitBusy)
      else (Requeue(c, o), SubmitRequeued(o))
    else if |UnfinishedIds(c)| >= MAX_UNFINISHED then (c, SubmitBusy)
    else if !saved then (c.(lastSeq := c.lastSeq + 1), SubmitStorage)
    else (Register(c, id, now), SubmitNew(|c.objs|))
  }

  datatype RetryOut = RetryClosed | RetryNotFound | RetryConflict | RetryBusy | RetryDone(o: Oid)

  function Retry(c: Core, id: Id): (Core, RetryOut)
    requires RegOk(c)
  {
    if c.closing then (c, RetryClosed)
    else if id !in c.reg || c.objs[c.reg[id]].deleting then (c, RetryNotFound)
    else if !c.objs[c.reg[id]].job.status.Failed? then (c, RetryConflict)
    else if |UnfinishedIds(c)| >= MAX_UNFINISHED then (c, RetryBusy)
    else (Requeue(c, c.reg[id]), RetryDone(c.reg[id]))
  }

  // ---- the download worker ----

  predicate Pickable(c: Core, o: Oid) {
    Registered(c, o) && var r := c.objs[o]; r.job.status.Queued? && !r.deleting && !r.active
  }

  /** pickQueuedLocked's answer: the pickable job with the smallest sequence number. */
  predicate PickQueued(c: Core, choice: Option<Oid>) {
    match choice
    case None => forall o | 0 <= o < |c.objs| :: !Pickable(c, o)
    case Some(b) =>
      && Pickable(c, b)
      && forall o | 0 <= o < |c.objs| && Pickable(c, o) :: c.objs[b].order <= c.objs[o].order
  }

  function StartDownload(c: Core, o: Oid): Core
    requires o < |c.objs|
  {
    SetObj(c, o, c.objs[o].(active := true))
  }

  function BeginDownload(c: Core, o: Oid): Core
    requires o < |c.objs|
  {
    SetObj(c, o, Put(c.objs[o], c.objs[o].job.(status := Downloading)))
  }

  /** A progress report; the flag says whether the status changed and a save is started. */
  function Report(c: Core, o: Oid, stage: Stage): (Core, bool)
    requires o < |c.objs|
  {
    var r := c.objs[o];
    if !Registered(c, o) || StatusForStage(stage) == r.job.status then (c, false)
    else (SetObj(c, o, Put(r, r.job.(status := StatusForStage(stage)))), true)
  }

  datatype Outcome =
    | Downloaded(title: string, duration: real, size: int)
    | DownloadFailed(title: string, canceled: bool, msg: string)

  function FinishedJob(j: Job, out: Outcome): Job {
    match out
    case Downloaded(title, duration, size) =>
      j.(title := if title != "" then title else j.title,
         duration := if duration > 0.0 then duration else j.duration,
         status := Ready, size := size, error := "")
    case DownloadFailed(title, canceled, msg) =>
      j.(title := if title != "" && j.title == "" then title else j.title,
         status := Failed, error := msg)
  }

  /** The section after Download returns; the flag says whether a save follows. */
  function FinishDownload(c: Core, o: Oid, out: Outcome): (Core, bool)
    requires o < |c.objs|
  {
    var r := c.objs[o];
    if !Registered(c, o) || r.deleting then (c, false)
    else if out.DownloadFailed? && out.canceled && c.closing then (c, false)
    else (SetObj(c, o, Put(r, FinishedJob(r.job, out))), true)
  }

  /** The epilogues; the flag is `finish`: this worker was the last owner of a deleting job. */
  function ReleaseDownload(c: Core, o: Oid): (Core, bool)
    requires o < |c.objs|
  {
    (SetObj(c, o, c.objs[o].(active := false)), c.objs[o].deleting && !c.objs[o].fetching)
  }

  function ReleaseTitle(c: Core, o: Oid): (Core, bool)
    requires o < |c.objs|
  {
    (SetObj(c, o, c.objs[o].(fetching := false)), c.objs[o].deleting && !c.objs[o].active)
  }

  // ---- title workers ----

  predicate TitlePickable(c: Core, o: Oid) {
    && Registered(c, o)
    && var r := c.objs[o];
    r.job.title == "" && !r.fetching && !r.deleting && r.titleTries < TITLE_ATTEMPTS && Unfinished(r.job)
  }

  predicate PickTitle(c: Core, choice: Option<Oid>) {
    match choice
    case None => forall o | 0 <= o < |c.objs| :: !TitlePickable(c, o)
    case Some(b) =>
      && TitlePickable(c, b)
      && forall o | 0 <= o < |c.objs| && TitlePickable(c, o) :: c.objs[b].order <= c.objs[o].order
  }

  function StartFetch(c: Core, o: Oid): Core
    requires o < |c.objs|
  {
    SetObj(c, o, c.objs[o].(fetching := true))
  }

  function TitleFetched(c: Core, o: Oid, title: string, duration: real): (Core, bool)
    requires o < |c.objs|
  {
    var r := c.objs[o];
    if Registered(c, o) && !r.deleting && r.job.title == "" then
      var d := if duration > 0.0 then duration else r.job.duration;
      (SetObj(c, o, Put(r, r.job.(title := title, duration := d))), true)
    else (c, false)
  }

  function TitleUnsupported(c: Core, o: Oid, msg: string): (Core, bool)
    requires o < |c.objs|
  {
    var r := c.objs[o];
    if Registered(c, o) && !r.deleting && r.job.status.Queued? then (SetObj(c, o, Fail(r, msg)), true)
    else (c, false)
  }

  function TitleExhausted(c: Core, o: Oid): Core
    requires o < |c.objs|
  {
    if Registered(c, o) then SetObj(c, o, c.objs[o].(titleTries := TITLE_ATTEMPTS)) else c
  }

  // ---- saving ----

  /** saveCurrent's check: None when the write is skipped, the snapshot otherwise. */
  function Snapshot(c: Core, o: Oid): Option<Job>
    requires o < |c.objs|
  {
    if !Registered(c, o) || c.objs[o].deleting then None else Some(c.objs[o].job)
  }

  function MarkUnpersistable(c: Core, o: Oid): Core
    requires o < |c.objs|
  {
    if Registered(c, o) && !c.objs[o].deleting then SetObj(c, o, Fail(c.objs[o], UNPERSISTABLE)) else c
  }

  // ---- deletion ----

  datatype DeleteOut =
    | DeleteNotFound
    | DeleteJoin(att: Option<Aid>)
    | DeleteAwait(o: Oid)
    | DeleteDirect(o: Oid)

  /** Delete's first section; `a` is the freshly allocated attempt. */
  function Delete(c: Core, id: Id, a: Aid): (Core, DeleteOut)
    requires RegOk(c)
  {
    if id !in c.reg then (c, DeleteNotFound)
    else
      var o := c.reg[id];
      var r := c.objs[o];
      if r.deleting then (c, DeleteJoin(r.removal))
      else
        var c' := SetObj(c, o, r.(removal := Some(a), deleting := true, cancelled := true));
        (c', if r.active || r.fetching then DeleteAwait(o) else DeleteDirect(o))
  }

  predicate Finalizable(c: Core, o: Oid) {
    Registered(c, o) && c.objs[o].deleting
  }

  function Unregister(c: Core, o: Oid): Core
    requires o < |c.objs|
  {
    if Registered(c, o) then c.(reg := c.reg - {c.objs[o].job.id}) else c
  }

  /** A failed removal gives the card back; the flag says whether a save is started. */
  function Restore(c: Core, o: Oid): (Core, bool)
    requires o < |c.objs|
  {
    var r := c.objs[o].(deleting := false, removal := None);
    if !Registered(c, o) then (c, false)
    else if Unfinished(r.job) then (SetObj(c, o, Fail(r, STUCK_FILES)), true)
    else (SetObj(c, o, r), false)
  }

  // ---- listing and shutdown ----

  function ReadyJobs(c: Core): set<Oid> {
    set o | 0 <= o < |c.objs| && Registered(c, o) && c.objs[o].job.status.Ready?
  }

  /** List's check of one job after its file was measured (None: it could not be). */
  function ListCheck(c: Core, o: Oid, size: Option<int>): (Core, bool)
    requires o < |c.objs|
  {
    var r := c.objs[o];
    if !Registered(c, o) || r.deleting then (c, false)
    else if size.None? || size.value == 0 then (SetObj(c, o, Fail(r, MISSING_FILE)), true)
    else (SetObj(c, o, Put(r, r.job.(size := size.value))), false)
  }

  predicate Interrupted(c: Core, o: Oid) {
    Registered(c, o) && !c.objs[o].deleting && InPipeline(c.objs[o].job.status)
  }

  function InterruptedJobs(c: Core): set<Oid> {
    set o | 0 <= o < |c.objs| && Interrupted(c, o)
  }

  /** Close's last section: every job left in the pipeline becomes retryable. */
  function Interrupt(c: Core): Core {
    c.(objs := seq(|c.objs|, i requires 0 <= i < |c.objs| =>
                     if Interrupted(c, i) then Fail(c.objs[i], INTERRUPTED) else c.objs[i]))
  }

  // ---- restart ----

  /** Recover's treatment of one scanned job; `size` is store.VideoSize's answer. */
  function RecoveredJob(j: Job, size: Option<int>): Job {
    if InPipeline(j.status) then j.(status := Failed, error := INTERRUPTED)
    else if j.status.Ready? then
      if size.None? || size.value == 0 then j.(status := Failed, error := MISSING_FILE)
      else j.(size := size.value)
    else j
  }

  /** A record that Recover had to edit is a version ahead of what the store holds. */
  function RecoveredRec(j: Job, size: Option<int>, order: nat): JobRec {
    var r := RecoveredJob(j, size);
    JobRec(r, order, false, false, false, false, 0, None, Bump(0, j, r))
  }

  /** One turn of Recover's loop: the scanned job is registered as a new object. */
  function AddRecovered(c: Core, j: Job, size: Option<int>): Core {
    Core(c.objs + [RecoveredRec(j, size, c.lastSeq + 1)], c.reg[j.id := |c.objs|], c.lastSeq + 1, c.closing)
  }

  function Recover(c: Core, jobs: seq<Job>, sizes: map<Id, Option<int>>): Core
    requires forall j | j in jobs :: j.id in sizes
    decreases |jobs|
  {
    if jobs == [] then c else Recover(AddRecovered(c, jobs[0], sizes[jobs[0].id]), jobs[1..], sizes)
  }
}
