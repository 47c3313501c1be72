/**
  What every step of the machine makes of every job, written as one table over the actions, and
  what follows for cards: when they become ready, failed or queued again, when they appear and
  disappear.
 */
module Cards {
  import opened Model
  import opened JobCore
  import opened JobMachine
  import opened Queue

  // ---- the table ----

  /** The videos that count: shown cards that are neither ready nor failed. */
  function Counted(c: Core): set<Id> {
    set id | id in c.reg && c.reg[id] < |c.objs| && !c.objs[c.reg[id]].deleting
             && !c.objs[c.reg[id]].job.status.Ready? && !c.objs[c.reg[id]].job.status.Failed?
  }

  lemma CountedIsUnfinished(c: Core)
    ensures Counted(c) == UnfinishedIds(c)
  {
  }

  /** What a step does to a job. */
  datatype Effect =
    | Nothing
    | Proceeds(status: Status)                                      // a stage of its download
    | Succeeds(title: string, duration: real, size: int)            // its download succeeded
    | Fails(msg: string, title: string)                             // it failed, perhaps with a title found
    | Titles(title: string, duration: real)                         // its title was fetched
    | Measures(size: int)                                           // List measured its file
    | Requeues                                                      // it waits again

  function Applied(j: Job, e: Effect): Job {
    match e
    case Nothing => j
    case Proceeds(status) => Job(j.id, j.title, j.duration, status, j.size, j.createdAt, j.error)
    case Succeeds(title, duration, size) =>
      Job(j.id, if title == "" then j.title else title, if duration > 0.0 then duration else j.duration, Ready, size,
          j.createdAt, "")
    case Fails(msg, title) =>
      Job(j.id, if j.title == "" then title else j.title, j.duration, Failed, j.size, j.createdAt, msg)
    case Titles(title, duration) =>
      Job(j.id, title, if duration > 0.0 then duration else j.duration, j.status, j.size, j.createdAt, j.error)
    case Measures(size) => Job(j.id, j.title, j.duration, j.status, size, j.createdAt, j.error)
    case Requeues => Job(j.id, j.title, j.duration, Queued, 0, j.createdAt, "")
  }

  /** A step of the worker that owns o. */
  function WorkEffect(c: Core, o: Oid, wk: WorkStep): Effect
    requires o < |c.objs|
  {
    match wk
    case Begin => Proceeds(Downloading)
    case Progress(stage, _) =>
      if !Registered(c, o) then Nothing
      else if stage.StageProcessing? then Proceeds(Processing)
      else if stage.StageVerifying? then Proceeds(Verifying)
      else Proceeds(Downloading)
    case Finish(Downloaded(title, duration, size)) =>
      if Shown(c, o) then Succeeds(title, duration, size) else Nothing
    case Finish(DownloadFailed(title, canceled, msg)) =>
      if Shown(c, o) && !(canceled && c.closing) then Fails(msg, title) else Nothing
    case Fetched(title, duration) =>
      if Shown(c, o) && c.objs[o].job.title == "" then Titles(title, duration) else Nothing
    case Unsupported(msg) => if InQueue(c, o) then Fails(msg, "") else Nothing
    case MarkFailed => if Shown(c, o) then Fails(UNPERSISTABLE, "") else Nothing
    case _ => Nothing
  }

  /** A failed card for which there is room. */
  predicate CanWait(c: Core, o: Oid) {
    !c.closing && Shown(c, o) && c.objs[o].job.status.Failed? && |Counted(c)| < 16
  }

  /** A step of a caller with request q. */
  function CallerEffect(c: Core, o: Oid, q: Request, ca: CallerStep): Effect
    requires o < |c.objs|
  {
    match ca
    case SubmitOnce(_, _, _, _) =>
      if q == Submitting(c.objs[o].job.id) && CanWait(c, o) then Requeues else Nothing
    case RetryOnce(_) =>
      if q == Retrying(c.objs[o].job.id) && CanWait(c, o) then Requeues else Nothing
    case ListOne(size, _) =>
      if !(q.Checking? && q.todo != [] && q.todo[0] == o && Shown(c, o)) then Nothing
      else if size == None || size == Some(0) then Fails(MISSING_FILE, "")
      else Measures(size.value)
    case CloseEnd(_) =>
      if Shown(c, o) && (var st := c.objs[o].job.status; st.Downloading? || st.Processing? || st.Verifying?)
      then Fails(INTERRUPTED, "") else Nothing
    case _ => Nothing
  }

  function EffectOf(s: State, act: Action, o: Oid): Effect
    requires o < |s.core.objs|
  {
    if act.t !in s.threads then Nothing
    else
      var pc := s.threads[act.t];
      match act
      case WorkAct(_, wk) => if pc.Owns? && pc.o == o then WorkEffect(s.core, o, wk) else Nothing
      case RemoveAct(_, GiveBack(_)) =>
        var st := s.core.objs[o].job.status;
        if pc.Remover? && pc.o == o && Registered(s.core, o) && !st.Ready? && !st.Failed? then Fails(STUCK_FILES, "")
        else Nothing
      case CallerAct(_, ca) => if pc.Client? then CallerEffect(s.core, o, pc.q, ca) else Nothing
      case _ => Nothing
  }

  // ---- the machine follows the table ----

  lemma OwnJob(s: State, t: Tid, kind: Kind, p: Oid, w: Work, wk: WorkStep, s': State, o: Oid)
    requires p < |s.core.objs| && o < |s.core.objs| && OwnStep(s, t, kind, p, w, wk, s')
    ensures o < |s'.core.objs|
    ensures s'.core.objs[o].job == Applied(s.core.objs[o].job, if p == o then WorkEffect(s.core, o, wk) else Nothing)
  {
  }

  lemma WorkJob(s: State, t: Tid, wk: WorkStep, s': State, o: Oid)
    requires WorkNext(s, t, wk, s') && o < |s.core.objs|
    ensures o < |s'.core.objs| && s'.core.objs[o].job == Applied(s.core.objs[o].job, EffectOf(s, WorkAct(t, wk), o))
  {
    var pc := s.threads[t];
    if pc.Owns? && !wk.Release? {
      OwnJob(s, t, pc.kind, pc.o, pc.w, wk, s', o);
    }
  }

  lemma RemoveJob(s: State, t: Tid, rm: RemoveStep, s': State, o: Oid)
    requires RemoveNext(s, t, rm, s') && o < |s.core.objs|
    ensures o < |s'.core.objs| && s'.core.objs[o].job == Applied(s.core.objs[o].job, EffectOf(s, RemoveAct(t, rm), o))
  {
  }

  lemma SubmitJob(s: State, t: Tid, ca: CallerStep, s': State, o: Oid)
    requires CallerNext(s, t, ca, s') && ca.SubmitOnce? && o < |s.core.objs|
    ensures o < |s'.core.objs| && s'.core.objs[o].job == Applied(s.core.objs[o].job, EffectOf(s, CallerAct(t, ca), o))
  {
    CountedIsUnfinished(s.core);
  }

  lemma RetryJob(s: State, t: Tid, ca: CallerStep, s': State, o: Oid)
    requires CallerNext(s, t, ca, s') && ca.RetryOnce? && o < |s.core.objs|
    ensures o < |s'.core.objs| && s'.core.objs[o].job == Applied(s.core.objs[o].job, EffectOf(s, CallerAct(t, ca), o))
  {
    CountedIsUnfinished(s.core);
  }

  lemma CallerJob(s: State, t: Tid, ca: CallerStep, s': State, o: Oid)
    requires CallerNext(s, t, ca, s') && o < |s.core.objs|
    ensures o < |s'.core.objs| && s'.core.objs[o].job == Applied(s.core.objs[o].job, EffectOf(s, CallerAct(t, ca), o))
  {
    if ca.SubmitOnce? {
      SubmitJob(s, t, ca, s', o);
    } else if ca.RetryOnce? {
      RetryJob(s, t, ca, s', o);
    }
  }

  /** Every step does to every job what the table says. */
  lemma JobAfter(s: State, act: Action, s': State, o: Oid)
    requires Step(s, act, s') && o < |s.core.objs|
    ensures o < |s'.core.objs| && s'.core.objs[o].job == Applied(s.core.objs[o].job, EffectOf(s, act, o))
  {
    match act
    case WorkAct(t, wk) => WorkJob(s, t, wk, s', o);
    case SaveAct(_, _) =>
    case RemoveAct(t, rm) => RemoveJob(s, t, rm, s', o);
    case CallerAct(t, ca) => CallerJob(s, t, ca, s', o);
    case Call(_, _) =>
  }

  // ---- ready ----

  /** The worker that owns o ends its download with this answer. */
  predicate Ends(s: State, act: Action, o: Oid, out: Outcome) {
    act.WorkAct? && act.wk == Finish(out) && act.t in s.threads && s.threads[act.t].Owns? && s.threads[act.t].o == o
  }

  /** A successful download of a shown card ends. */
  predicate EndsWell(s: State, act: Action, o: Oid) {
    Shown(s.core, o) && act.WorkAct? && act.wk.Finish? && act.wk.out.Downloaded? && Ends(s, act, o, act.wk.out)
  }

  /** A card becomes ready exactly by the end of its own successful download. */
  lemma BecomesReady(s: State, act: Action, s': State, o: Oid)
    requires Step(s, act, s') && o < |s.core.objs| && !s.core.objs[o].job.status.Ready?
    ensures o < |s'.core.objs| && (s'.core.objs[o].job.status.Ready? <==> EndsWell(s, act, o))
  {
    JobAfter(s, act, s', o);
    ReadyEffect(s, act, o);
  }

  lemma ReadyEffect(s: State, act: Action, o: Oid)
    requires o < |s.core.objs| && !s.core.objs[o].job.status.Ready?
    ensures Applied(s.core.objs[o].job, EffectOf(s, act, o)).status.Ready? <==> EndsWell(s, act, o)
  {
  }

  /** It then has the answered size and no error, and what the download found of title and duration. */
  lemma ReadyCard(s: State, act: Action, s': State, o: Oid)
    requires Step(s, act, s') && EndsWell(s, act, o)
    ensures var j, j', out := s.core.objs[o].job, s'.core.objs[o].job, act.wk.out;
      && o < |s'.core.objs| && j'.status == Ready && j'.size == out.size && j'.error == ""
      && j'.id == j.id && j'.createdAt == j.createdAt
      && j'.title == (if out.title != "" then out.title else j.title)
      && j'.duration == (if out.duration > 0.0 then out.duration else j.duration)
  {
    JobAfter(s, act, s', o);
  }

  /**
    A failed download of a shown card leaves it failed with the answered message, unless it was
    cancelled while the manager closes; a title it found is taken if the card had none.
   */
  lemma FailedDownload(s: State, act: Action, s': State, o: Oid, out: Outcome)
    requires Step(s, act, s') && Ends(s, act, o, out) && out.DownloadFailed? && Shown(s.core, o)
    ensures var j, j' := s.core.objs[o].job, s'.core.objs[o].job;
      && o < |s'.core.objs|
      && if out.canceled && s.core.closing then j' == j
         else
           && j'.status == Failed && j'.error == out.msg && j'.size == j.size && j'.duration == j.duration
           && j'.id == j.id && j'.createdAt == j.createdAt
           && j'.title == (if j.title == "" && out.title != "" then out.title else j.title)
  {
    JobAfter(s, act, s', o);
  }

  // ---- failed ----

  datatype FailCause = ByDownload | ByTitle | BySave | ByList | ByDelete | ByClose

  predicate Running(c: Core, o: Oid) {
    Shown(c, o) && var st := c.objs[o].job.status; st.Downloading? || st.Processing? || st.Verifying?
  }

  /** The step fails card o for this reason. */
  predicate FailsBy(s: State, act: Action, o: Oid, cause: FailCause) {
    o < |s.core.objs| && act.t in s.threads &&
    var pc := s.threads[act.t];
    match cause
    case ByDownload =>
      && Shown(s.core, o) && act.WorkAct? && act.wk.Finish? && act.wk.out.DownloadFailed?
      && Ends(s, act, o, act.wk.out) && !(act.wk.out.canceled && s.core.closing)
    case ByTitle => InQueue(s.core, o) && act.WorkAct? && act.wk.Unsupported? && pc.Owns? && pc.o == o
    case BySave => Shown(s.core, o) && act.WorkAct? && act.wk.MarkFailed? && pc.Owns? && pc.o == o
    case ByList =>
      && Shown(s.core, o) && act.CallerAct? && act.ca.ListOne? && (act.ca.size == None || act.ca.size == Some(0))
      && pc.Client? && pc.q.Checking? && pc.q.todo != [] && pc.q.todo[0] == o
    case ByDelete =>
      && Registered(s.core, o) && !s.core.objs[o].job.status.Ready? && !s.core.objs[o].job.status.Failed?
      && act.RemoveAct? && act.rm.GiveBack? && pc.Remover? && pc.o == o
    case ByClose => Running(s.core, o) && act.CallerAct? && act.ca.CloseEnd? && pc.Client?
  }

  function FailMessage(act: Action, cause: FailCause): string {
    match cause
    case ByDownload => if act.WorkAct? && act.wk.Finish? && act.wk.out.DownloadFailed? then act.wk.out.msg else ""
    case ByTitle => if act.WorkAct? && act.wk.Unsupported? then act.wk.msg else ""
    case BySave => "Unable to persist the job state. Check server storage."
    case ByList => "The stored file is missing. Retry to download it again."
    case ByDelete => "Unable to delete the video files. Check server storage and try again."
    case ByClose => "The download was interrupted by a restart. Tap Retry to continue."
  }

  ghost predicate FailsSomehow(s: State, act: Action, o: Oid) {
    exists cause :: FailsBy(s, act, o, cause)
  }

  /** A card becomes failed exactly for one of six reasons. */
  lemma BecomesFailed(s: State, act: Action, s': State, o: Oid)
    requires Step(s, act, s') && o < |s.core.objs| && !s.core.objs[o].job.status.Failed?
    ensures o < |s'.core.objs| && (s'.core.objs[o].job.status.Failed? <==> FailsSomehow(s, act, o))
  {
    JobAfter(s, act, s', o);
    FailedEffect(s, act, o);
  }

  lemma FailedEffect(s: State, act: Action, o: Oid)
    requires o < |s.core.objs| && !s.core.objs[o].job.status.Failed?
    ensures Applied(s.core.objs[o].job, EffectOf(s, act, o)).status.Failed? <==> FailsSomehow(s, act, o)
  {
    FailEffect(s, act, o);
  }

  lemma FailEffect(s: State, act: Action, o: Oid)
    requires o < |s.core.objs|
    ensures EffectOf(s, act, o).Fails? <==> FailsSomehow(s, act, o)
    ensures forall cause | FailsBy(s, act, o, cause) :: EffectOf(s, act, o).msg == FailMessage(act, cause)
  {
    if EffectOf(s, act, o).Fails? {
      var cause :=
        if act.WorkAct? && act.wk.Finish? then ByDownload
        else if act.WorkAct? && act.wk.Unsupported? then ByTitle
        else if act.WorkAct? then BySave
        else if act.RemoveAct? then ByDelete
        else if act.ca.ListOne? then ByList else ByClose;
      assert FailsBy(s, act, o, cause);
    }
  }

  /** The card then says why, and keeps its size. */
  lemma FailedCard(s: State, act: Action, s': State, o: Oid, cause: FailCause)
    requires Step(s, act, s') && FailsBy(s, act, o, cause)
    ensures var j, j' := s.core.objs[o].job, s'.core.objs[o].job;
      && o < |s'.core.objs| && j'.status == Failed && j'.error == FailMessage(act, cause)
      && j'.size == j.size && j'.duration == j.duration
      && (j.title != "" || cause != ByDownload ==> j'.title == j.title)
  {
    JobAfter(s, act, s', o);
    FailEffect(s, act, o);
  }

  // ---- waiting and running ----

  /** A Submit or a Retry of the card's video, when the card is failed and fewer than 16 count. */
  predicate AskedFor(s: State, act: Action, o: Oid) {
    && CanWait(s.core, o) && act.CallerAct? && act.t in s.threads && s.threads[act.t].Client?
    && var id, q := s.core.objs[o].job.id, s.threads[act.t].q;
    (act.ca.SubmitOnce? && q == Submitting(id)) || (act.ca.RetryOnce? && q == Retrying(id))
  }

  /** A card waits again exactly by such a request; its error and size are gone, its title stays. */
  lemma BecomesQueued(s: State, act: Action, s': State, o: Oid)
    requires Step(s, act, s') && o < |s.core.objs| && !s.core.objs[o].job.status.Queued?
    ensures o < |s'.core.objs| && (s'.core.objs[o].job.status.Queued? <==> AskedFor(s, act, o))
    ensures AskedFor(s, act, o) ==>
      s'.core.objs[o].job == s.core.objs[o].job.(status := Queued, error := "", size := 0)
  {
    JobAfter(s, act, s', o);
    QueuedEffect(s, act, o);
  }

  lemma QueuedEffect(s: State, act: Action, o: Oid)
    requires o < |s.core.objs| && !s.core.objs[o].job.status.Queued?
    ensures var j, j' := s.core.objs[o].job, Applied(s.core.objs[o].job, EffectOf(s, act, o));
      && (j'.status.Queued? <==> AskedFor(s, act, o))
      && (AskedFor(s, act, o) ==> j' == j.(status := Queued, error := "", size := 0))
  {
  }

  /** The download worker reports this status of its registered job. */
  predicate Reports(s: State, act: Action, o: Oid, status: Status) {
    act.WorkAct? && act.t in s.threads && s.threads[act.t].Owns? && s.threads[act.t].o == o &&
    match status
    case Downloading => act.wk.Begin? ||
      (Registered(s.core, o) && act.wk.Progress? && (act.wk.stage.StageVideo? || act.wk.stage.StageAudio?))
    case Processing => Registered(s.core, o) && act.wk.Progress? && act.wk.stage.StageProcessing?
    case Verifying => Registered(s.core, o) && act.wk.Progress? && act.wk.stage.StageVerifying?
    case _ => false
  }

  /** A card's status becomes one of the three of a running download exactly by such a report. */
  lemma BecomesRunning(s: State, act: Action, s': State, o: Oid, status: Status)
    requires Step(s, act, s') && o < |s.core.objs| && s.core.objs[o].job.status != status
    requires status.Downloading? || status.Processing? || status.Verifying?
    ensures o < |s'.core.objs| && (s'.core.objs[o].job.status == status <==> Reports(s, act, o, status))
    ensures Reports(s, act, o, status) ==> s'.core.objs[o].job == s.core.objs[o].job.(status := status)
  {
    JobAfter(s, act, s', o);
    StagesOnly(s, act, s');
    RunningEffect(s, act, o, status);
  }

  lemma StagesOnly(s: State, act: Action, s': State)
    requires Step(s, act, s')
    ensures act.WorkAct? && act.wk.Progress? ==> PipelineStage(act.wk.stage)
  {
  }

  lemma RunningEffect(s: State, act: Action, o: Oid, status: Status)
    requires o < |s.core.objs| && s.core.objs[o].job.status != status
    requires status.Downloading? || status.Processing? || status.Verifying?
    requires act.WorkAct? && act.wk.Progress? ==> PipelineStage(act.wk.stage)
    ensures var j, j' := s.core.objs[o].job, Applied(s.core.objs[o].job, EffectOf(s, act, o));
      && (j'.status == status <==> Reports(s, act, o, status))
      && (Reports(s, act, o, status) ==> j' == j.(status := status))
  {
  }

  // ---- flags and places ----

  /** Delete marks the shown card. */
  predicate DeletesNow(s: State, act: Action, o: Oid) {
    && Shown(s.core, o) && act.CallerAct? && act.ca.DeleteOnce? && act.t in s.threads
    && s.threads[act.t] == Client(Deleting(s.core.objs[o].job.id))
  }

  /** A failed removal gives the card back. */
  predicate GivesBack(s: State, act: Action, o: Oid) {
    && Registered(s.core, o) && act.RemoveAct? && act.rm.GiveBack? && act.t in s.threads
    && s.threads[act.t].Remover? && s.threads[act.t].o == o
  }

  predicate PicksNow(s: State, act: Action, o: Oid, kind: Kind) {
    && !s.core.closing && act.WorkAct? && act.wk == Pick(Some(o)) && act.t in s.threads
    && s.threads[act.t].Loop? && s.threads[act.t].kind == kind
  }

  predicate OwnerDoes(s: State, act: Action, o: Oid, wk: WorkStep) {
    act.WorkAct? && act.wk == wk && act.t in s.threads && s.threads[act.t].Owns? && s.threads[act.t].o == o
  }

  predicate ReleasesNow(s: State, act: Action, o: Oid, kind: Kind) {
    OwnerDoes(s, act, o, Release) && s.threads[act.t].kind == kind
  }

  /** The flags of an object, and its place in the queue, before and after a step. */
  predicate FlagsMove(s: State, act: Action, s': State, o: Oid) {
    o < |s.core.objs| && o < |s'.core.objs| &&
    var r, r' := s.core.objs[o], s'.core.objs[o];
    && r'.deleting == ((r.deleting || DeletesNow(s, act, o)) && !GivesBack(s, act, o))
    && r'.cancelled == ((r.cancelled || DeletesNow(s, act, o)) && !AskedFor(s, act, o))
    && r'.active == ((r.active || PicksNow(s, act, o, Down)) && !ReleasesNow(s, act, o, Down))
    && r'.fetching == ((r.fetching || PicksNow(s, act, o, Title)) && !ReleasesNow(s, act, o, Title))
    && r'.titleTries == (if OwnerDoes(s, act, o, Exhausted) && Registered(s.core, o) then 3 else r.titleTries)
    && r'.order == if AskedFor(s, act, o) then s.core.lastSeq + 1 else r.order
  }

  lemma OwnFlags(s: State, t: Tid, kind: Kind, p: Oid, w: Work, wk: WorkStep, s': State, o: Oid)
    requires p < |s.core.objs| && o < |s.core.objs| && OwnStep(s, t, kind, p, w, wk, s')
    ensures o < |s'.core.objs|
    ensures var r, r' := s.core.objs[o], s'.core.objs[o];
      && r'.deleting == r.deleting && r'.cancelled == r.cancelled && r'.active == r.active
      && r'.fetching == r.fetching && r'.order == r.order
      && r'.titleTries == if wk.Exhausted? && p == o && Registered(s.core, o) then 3 else r.titleTries
  {
  }

  lemma WorkFlags(s: State, t: Tid, wk: WorkStep, s': State, o: Oid)
    requires WorkNext(s, t, wk, s') && o < |s.core.objs|
    ensures FlagsMove(s, WorkAct(t, wk), s', o)
  {
    var pc := s.threads[t];
    if pc.Loop? {
      LoopFlags(s, t, wk, s', o);
    } else if wk.Release? {
      ReleaseFlags(s, t, s', o);
    } else {
      OwnFlags(s, t, pc.kind, pc.o, pc.w, wk, s', o);
    }
  }

  lemma LoopFlags(s: State, t: Tid, wk: WorkStep, s': State, o: Oid)
    requires WorkNext(s, t, wk, s') && s.threads[t].Loop? && o < |s.core.objs|
    ensures FlagsMove(s, WorkAct(t, wk), s', o)
  {
  }

  lemma ReleaseFlags(s: State, t: Tid, s': State, o: Oid)
    requires WorkNext(s, t, Release, s') && o < |s.core.objs|
    ensures FlagsMove(s, WorkAct(t, Release), s', o)
  {
  }

  lemma RemoveFlags(s: State, t: Tid, rm: RemoveStep, s': State, o: Oid)
    requires RemoveNext(s, t, rm, s') && o < |s.core.objs|
    ensures FlagsMove(s, RemoveAct(t, rm), s', o)
  {
  }

  lemma SubmitFlags(s: State, t: Tid, ca: CallerStep, s': State, o: Oid)
    requires CallerNext(s, t, ca, s') && ca.SubmitOnce? && o < |s.core.objs|
    ensures FlagsMove(s, CallerAct(t, ca), s', o)
  {
    SubmitRecord(s, t, ca, s', o);
    assert !DeletesNow(s, CallerAct(t, ca), o);
  }

  lemma SubmitRecord(s: State, t: Tid, ca: CallerStep, s': State, o: Oid)
    requires CallerNext(s, t, ca, s') && ca.SubmitOnce? && o < |s.core.objs|
    ensures o < |s'.core.objs|
    ensures var r, r' := s.core.objs[o], s'.core.objs[o];
      r'.(job := r.job, ver := r.ver) ==
      if AskedFor(s, CallerAct(t, ca), o) then r.(order := s.core.lastSeq + 1, cancelled := false) else r
  {
    SubmitCore(s, t, ca, s');
    SubmitMovesRecord(s.core, s.threads[t].q.id, ca.now, ca.ok, o);
  }

  lemma SubmitCore(s: State, t: Tid, ca: CallerStep, s': State)
    requires CallerNext(s, t, ca, s') && ca.SubmitOnce?
    ensures s'.core == Submit(s.core, s.threads[t].q.id, ca.now, ca.ok).0
  {
  }

  lemma SubmitMovesRecord(c: Core, id: Id, now: Time, ok: bool, o: Oid)
    requires RegOk(c) && o < |c.objs|
    ensures o < |Submit(c, id, now, ok).0.objs|
    ensures var r, r' := c.objs[o], Submit(c, id, now, ok).0.objs[o];
      r'.(job := r.job, ver := r.ver) ==
      if id == r.job.id && CanWait(c, o) then r.(order := c.lastSeq + 1, cancelled := false) else r
  {
    CountedIsUnfinished(c);
  }

  lemma RetryFlags(s: State, t: Tid, ca: CallerStep, s': State, o: Oid)
    requires CallerNext(s, t, ca, s') && ca.RetryOnce? && o < |s.core.objs|
    ensures FlagsMove(s, CallerAct(t, ca), s', o)
  {
    CountedIsUnfinished(s.core);
  }

  lemma DeleteFlags(s: State, t: Tid, ca: CallerStep, s': State, o: Oid)
    requires CallerNext(s, t, ca, s') && ca.DeleteOnce? && o < |s.core.objs|
    ensures FlagsMove(s, CallerAct(t, ca), s', o)
  {
  }

  /** The requests that neither ask for a download nor delete one. */
  lemma OtherFlags(s: State, t: Tid, ca: CallerStep, s': State, o: Oid)
    requires CallerNext(s, t, ca, s') && o < |s.core.objs|
    requires !ca.SubmitOnce? && !ca.RetryOnce? && !ca.DeleteOnce?
    ensures FlagsMove(s, CallerAct(t, ca), s', o)
  {
    OtherRecord(s, t, ca, s', o);
  }

  lemma OtherRecord(s: State, t: Tid, ca: CallerStep, s': State, o: Oid)
    requires CallerNext(s, t, ca, s') && o < |s.core.objs|
    requires !ca.SubmitOnce? && !ca.RetryOnce? && !ca.DeleteOnce?
    ensures o < |s'.core.objs|
    ensures SameButJob(s.core.objs[o], s'.core.objs[o])
  {
    if ca.ListOne? {
      ListRecord(s, t, ca, s', o);
    } else if ca.CloseEnd? {
      CloseRecord(s, t, ca, s', o);
    }
  }

  predicate SameButJob(r: JobRec, r': JobRec) {
    r' == r.(job := r'.job, ver := r'.ver)
  }

  lemma ListRecord(s: State, t: Tid, ca: CallerStep, s': State, o: Oid)
    requires CallerNext(s, t, ca, s') && ca.ListOne? && o < |s.core.objs|
    ensures o < |s'.core.objs| && SameButJob(s.core.objs[o], s'.core.objs[o])
  {
  }

  lemma CloseRecord(s: State, t: Tid, ca: CallerStep, s': State, o: Oid)
    requires CallerNext(s, t, ca, s') && ca.CloseEnd? && o < |s.core.objs|
    ensures o < |s'.core.objs| && SameButJob(s.core.objs[o], s'.core.objs[o])
  {
  }

  lemma CallerFlags(s: State, t: Tid, ca: CallerStep, s': State, o: Oid)
    requires CallerNext(s, t, ca, s') && o < |s.core.objs|
    ensures FlagsMove(s, CallerAct(t, ca), s', o)
  {
    if ca.SubmitOnce? {
      SubmitFlags(s, t, ca, s', o);
    } else if ca.RetryOnce? {
      RetryFlags(s, t, ca, s', o);
    } else if ca.DeleteOnce? {
      DeleteFlags(s, t, ca, s', o);
    } else {
      OtherFlags(s, t, ca, s', o);
    }
  }

  /** Every step moves the flags of every object as FlagsMove says. */
  lemma FlagsAfter(s: State, act: Action, s': State, o: Oid)
    requires Step(s, act, s') && o < |s.core.objs|
    ensures FlagsMove(s, act, s', o)
  {
    match act
    case WorkAct(t, wk) => WorkFlags(s, t, wk, s', o);
    case SaveAct(_, _) =>
    case RemoveAct(t, rm) => RemoveFlags(s, t, rm, s', o);
    case CallerAct(t, ca) => CallerFlags(s, t, ca, s', o);
    case Call(_, _) =>
  }

  // ---- cards come and go ----

  /** The remover of o takes its confirmed removal out of the registry. */
  predicate TakesOut(s: State, act: Action, o: Oid) {
    && act.RemoveAct? && act.rm.TakeOut? && act.t in s.threads
    && s.threads[act.t].Remover? && s.threads[act.t].r.Removed? && s.threads[act.t].o == o
  }

  lemma CallerKeepsCards(s: State, t: Tid, ca: CallerStep, s': State, o: Oid)
    requires CallerNext(s, t, ca, s') && Registered(s.core, o)
    ensures Registered(s'.core, o)
  {
    if ca.SubmitOnce? {
      SubmitKeepsCards(s, t, ca, s', o);
    }
  }

  lemma SubmitKeepsCards(s: State, t: Tid, ca: CallerStep, s': State, o: Oid)
    requires CallerNext(s, t, ca, s') && ca.SubmitOnce? && Registered(s.core, o)
    ensures Registered(s'.core, o)
  {
  }

  lemma RemoveKeepsCards(s: State, t: Tid, rm: RemoveStep, s': State, o: Oid)
    requires RegOk(s.core) && RemoveNext(s, t, rm, s') && Registered(s.core, o)
    ensures Registered(s'.core, o) <==> !TakesOut(s, RemoveAct(t, rm), o)
  {
  }

  lemma WorkKeepsCards(s: State, t: Tid, wk: WorkStep, s': State, o: Oid)
    requires WorkNext(s, t, wk, s') && Registered(s.core, o)
    ensures Registered(s'.core, o)
  {
  }

  /** A card disappears exactly when the removal of that very job, confirmed by the store, ends. */
  lemma CardLeaves(s: State, act: Action, s': State, o: Oid)
    requires RegOk(s.core) && Step(s, act, s') && Registered(s.core, o)
    ensures !Registered(s'.core, o) <==> TakesOut(s, act, o)
  {
    match act
    case WorkAct(t, wk) => WorkKeepsCards(s, t, wk, s', o);
    case SaveAct(_, _) =>
    case RemoveAct(t, rm) => RemoveKeepsCards(s, t, rm, s', o);
    case CallerAct(t, ca) => CallerKeepsCards(s, t, ca, s', o);
    case Call(_, _) =>
  }

  /** A Submit of a video without a card, when fewer than 16 count and the record could be saved. */
  predicate AskedAnew(s: State, act: Action, id: Id) {
    && !s.core.closing && id !in s.core.reg && |Counted(s.core)| < 16
    && act.CallerAct? && act.ca.SubmitOnce? && act.ca.ok && act.t in s.threads
    && s.threads[act.t] == Client(Submitting(id))
  }

  /** The card of a job that has just been submitted. */
  predicate NewCard(c: Core, o: Oid, id: Id, now: Time) {
    && Registered(c, o) && c.objs[o].job == Job(id, "", 0.0, Queued, 0, now, "")
    && var r := c.objs[o];
    && !r.cancelled && !r.active && !r.fetching && !r.deleting && r.titleTries == 0 && r.removal == None
    && r.order == c.lastSeq
  }

  lemma SubmitNewCard(s: State, t: Tid, ca: CallerStep, s': State)
    requires CallerNext(s, t, ca, s') && ca.SubmitOnce? && s.threads[t].q.Submitting?
    ensures var id := s.threads[t].q.id;
      if AskedAnew(s, CallerAct(t, ca), id)
      then |s'.core.objs| == |s.core.objs| + 1 && NewCard(s'.core, |s.core.objs|, id, ca.now)
      else |s'.core.objs| == |s.core.objs|
  {
    CountedIsUnfinished(s.core);
  }

  lemma NothingNew(s: State, act: Action, s': State)
    requires Step(s, act, s') && !(act.CallerAct? && act.ca.SubmitOnce?)
    ensures |s'.core.objs| == |s.core.objs|
  {
    match act
    case WorkAct(t, wk) => WorkNothingNew(s, t, wk, s');
    case SaveAct(_, _) =>
    case RemoveAct(t, rm) => RemoveNothingNew(s, t, rm, s');
    case CallerAct(t, ca) => CallerNothingNew(s, t, ca, s');
    case Call(_, _) =>
  }

  lemma WorkNothingNew(s: State, t: Tid, wk: WorkStep, s': State)
    requires WorkNext(s, t, wk, s')
    ensures |s'.core.objs| == |s.core.objs|
  {
  }

  lemma RemoveNothingNew(s: State, t: Tid, rm: RemoveStep, s': State)
    requires RemoveNext(s, t, rm, s')
    ensures |s'.core.objs| == |s.core.objs|
  {
  }

  lemma CallerNothingNew(s: State, t: Tid, ca: CallerStep, s': State)
    requires CallerNext(s, t, ca, s') && !ca.SubmitOnce?
    ensures |s'.core.objs| == |s.core.objs|
  {
  }

  ghost predicate AskedAnewForSome(s: State, act: Action) {
    exists id :: AskedAnew(s, act, id)
  }

  /** A card appears exactly by such a Submit: queued, at the back, untouched. */
  lemma CardAppears(s: State, act: Action, s': State)
    requires Step(s, act, s')
    ensures |s'.core.objs| == |s.core.objs| + if AskedAnewForSome(s, act) then 1 else 0
    ensures forall id | AskedAnew(s, act, id) :: NewCard(s'.core, |s.core.objs|, id, act.ca.now)
  {
    if act.CallerAct? && act.ca.SubmitOnce? {
      SubmitNewCard(s, act.t, act.ca, s');
    } else {
      NothingNew(s, act, s');
    }
  }
}
