/**
  The job manager as a step machine. Every critical section of the global mutex is one atomic
  step; steps are split wherever a lock is released or a foreign call (Download, Fetch, Save,
  Remove) takes place. Foreign calls answer nondeterministically, with failures.

  Thread 0 is the download worker, threads 1 and 2 the title workers; all other threads are
  API callers and detached saves. `lock` and `fin` index, for each job object, the thread that
  holds its saveMu and the thread that must complete its pending removal.
 */
module JobMachine {
  import opened Model
  import opened JobCore

  type Tid = nat

  datatype Kind = Down | Title

  /** A worker loop between jobs. */
  datatype LoopAt = Top | Parked | Exited | Waking

  /** A worker that owns a job: runDownload and runTitleFetch, up to the epilogue. */
  datatype Work = Picked | Piping | Fetching(n: nat) | Delaying(n: nat) | GivingUp | Marking | Leaving

  /** saveCurrent: waiting for saveMu, or writing the snapshot while holding it. */
  datatype SaveAt = Waiting | Writing(snap: Job, ver: nat)

  /** What follows saveCurrent. */
  datatype After =
    | Pipe                               // runDownload goes on to Download
    | Leave(kind: Kind)                  // a worker with a result goes to its epilogue
    | Detached                           // go m.saveCurrent(js)
    | CloseSaves(rest: seq<(Oid, nat)>)  // Close's remaining saves

  /** On whose behalf finalizeDeletion runs. */
  datatype FinFor = ForCaller | ForWorker(kind: Kind)

  /** finalizeDeletion up to the section that ends the removal. */
  datatype RemoveAt = Announcing | Checking | Removing(a: Aid) | Removed(a: Aid) | Stuck(a: Aid)

  datatype Request =
    | Submitting(id: Id)
    | SubmitWaiting(id: Id, a: Aid)
    | Retrying(id: Id)
    | Deleting(id: Id)
    | DeleteWaiting(a: Aid)
    | Listing
    | Checking(todo: seq<Oid>)
    | Closing
    | CloseWaiting

  datatype Reply =
    | Saved
    | Submitted(sub: SubmitOut)
    | TimedOut
    | Retried(ret: RetryOut)
    | DeleteMissing
    | DeleteEnded(a: Aid, failed: bool)
    | Listed
    | ClosedNow

  /** Program counters. `base` is the job version a save was started for. */
  datatype Pc =
    | Loop(kind: Kind, l: LoopAt)
    | Owns(kind: Kind, o: Oid, w: Work)
    | Storing(o: Oid, base: nat, at: SaveAt, k: After)
    | Remover(o: Oid, r: RemoveAt, f: FinFor)
    | Closer(o: Oid, a: Aid, failed: bool, f: FinFor)
    | Client(q: Request)
    | Returned(reply: Reply)

  /** A removalAttempt: its job, whether done is closed, and the error read by waiters. */
  datatype Attempt = Attempt(o: Oid, done: bool, failed: bool)

  /**
    A metadata record as Scan would decode it, with the object and version that wrote it. (The
    object of a record that a failed Submit left was never registered.)
   */
  datatype Stored = Stored(owner: Oid, ver: nat, job: Job)

  /** Locks and removals: who holds each saveMu, who must finish each removal, the attempts. */
  datatype Guard = Guard(
    lock: map<Oid, Tid>,
    fin: map<Oid, Tid>,
    atts: seq<Attempt>,
    crashed: bool)             // a nil removal was used or a channel closed twice

  /** The store: records by video, what was removed, records a failed Submit left behind. */
  datatype Shelf = Shelf(
    disk: map<Id, Stored>,
    gone: set<Oid>,            // objects whose Remove succeeded or found nothing
    leftover: set<Id>)

  datatype State = State(core: Core, threads: map<Tid, Pc>, guard: Guard, shelf: Shelf)

  /** Steps of a worker, from its loop to its epilogue. */
  datatype WorkStep =
    | Pick(choice: Option<Oid>)
    | Begin
    | Progress(stage: Stage, ch: Tid)
    | Finish(out: Outcome)
    | Fetched(title: string, duration: real)
    | Unsupported(msg: string)
    | FetchFailed
    | Waited(interrupted: bool)
    | Exhausted
    | MarkFailed
    | Release
    | Broadcast

  datatype SaveStep = SaveBegin | SaveEnd(wrote: bool, ok: bool)

  datatype RemoveStep =
    | Announce
    | Check
    | RemoveOk
    | RemoveFailed(recordLost: bool)
    | TakeOut
    | GiveBack(ch: Tid)
    | CloseDone

  datatype CallerStep =
    | SubmitOnce(now: Time, wrote: bool, ok: bool, ch: Tid)
    | SubmitWake(timeout: bool)
    | RetryOnce(ch: Tid)
    | DeleteOnce
    | DeleteWake(timeout: bool)
    | ListReady(todo: seq<Oid>)
    | ListOne(size: Option<int>, ch: Tid)
    | CloseBegin
    | CloseEnd(order: seq<Oid>)

  datatype Action =
    | WorkAct(t: Tid, wk: WorkStep)
    | SaveAct(t: Tid, sv: SaveStep)
    | RemoveAct(t: Tid, rm: RemoveStep)
    | CallerAct(t: Tid, ca: CallerStep)
    | Call(t: Tid, q: Request)

  // ---- building blocks ----

  function Woken(pc: Pc): Pc {
    if pc.Loop? && pc.l.Parked? then pc.(l := Top) else pc
  }

  /** m.cond.Broadcast() */
  function WakeAll(threads: map<Tid, Pc>): map<Tid, Pc> {
    map t | t in threads :: Woken(threads[t])
  }

  /** About to call saveCurrent(o), for the version o has now. */
  function ToSave(c: Core, o: Oid, k: After): Pc
    requires o < |c.objs|
  {
    Storing(o, c.objs[o].ver, Waiting, k)
  }

  function AfterSave(o: Oid, k: After, ok: bool): Pc {
    match k
    case Pipe => Owns(Down, o, Piping)
    case Leave(kind) => Owns(kind, o, if ok then Leaving else Marking)
    case Detached => Returned(Saved)
    case CloseSaves(rest) => CloseNext(rest)
  }

  function CloseNext(rest: seq<(Oid, nat)>): Pc {
    if rest == [] then Returned(ClosedNow) else Storing(rest[0].0, rest[0].1, Waiting, CloseSaves(rest[1..]))
  }

  function AfterFin(f: FinFor, a: Aid, failed: bool): Pc {
    match f
    case ForCaller => Returned(DeleteEnded(a, failed))
    case ForWorker(kind) => Loop(kind, Top)
  }

  // ---- workers ----

  function Activate(c: Core, kind: Kind, o: Oid): Core
    requires o < |c.objs|
  {
    if kind.Down? then StartDownload(c, o) else StartFetch(c, o)
  }

  function ReleaseJob(c: Core, kind: Kind, o: Oid): (Core, bool)
    requires o < |c.objs|
  {
    if kind.Down? then ReleaseDownload(c, o) else ReleaseTitle(c, o)
  }

  predicate Chosen(c: Core, kind: Kind, choice: Option<Oid>) {
    if kind.Down? then PickQueued(c, choice) else PickTitle(c, choice)
  }

  /** One section of the worker loops: exit, park or own the chosen job. */
  predicate PickStep(s: State, t: Tid, kind: Kind, choice: Option<Oid>, s': State) {
    && s'.guard == s.guard
    && if s.core.closing then s'.core == s.core && s'.threads == s.threads[t := Loop(kind, Exited)]
       else
         && Chosen(s.core, kind, choice)
         && match choice
            case None => s'.core == s.core && s'.threads == s.threads[t := Loop(kind, Parked)]
            case Some(o) =>
              && s'.core == Activate(s.core, kind, o)
              && s'.threads == s.threads[t := Owns(kind, o, if kind.Down? then Picked else Fetching(1))]
  }

  /** The epilogue: the last owner of a deleting job takes over its removal. */
  predicate ReleaseStep(s: State, t: Tid, kind: Kind, o: Oid, s': State)
    requires o < |s.core.objs|
  {
    var (c, finish) := ReleaseJob(s.core, kind, o);
    && s'.core == c
    && s'.threads == s.threads[t := if finish then Remover(o, Announcing, ForWorker(kind)) else Loop(kind, Waking)]
    && s'.guard == if finish then s.guard.(fin := s.guard.fin[o := t]) else s.guard
  }

  /** A worker's edit of its job, followed by a save or by `otherwise`. */
  predicate EditStep(s: State, t: Tid, o: Oid, edit: (Core, bool), k: After, otherwise: Pc, s': State)
    requires o < |edit.0.objs|
  {
    && s'.core == edit.0
    && s'.threads == s.threads[t := if edit.1 then ToSave(edit.0, o, k) else otherwise]
  }

  function NextFetch(c: Core, o: Oid, n: nat): Work
    requires o < |c.objs|
  {
    if CtxDone(c, o) then Leaving else if n < TITLE_ATTEMPTS then Delaying(n) else GivingUp
  }

  /** The steps of a worker that owns job o, up to its epilogue. */
  predicate OwnStep(s: State, t: Tid, kind: Kind, o: Oid, w: Work, wk: WorkStep, s': State)
    requires o < |s.core.objs|
  {
    var leave := Owns(kind, o, Leaving);
    match wk
    case Begin => w.Picked? && EditStep(s, t, o, (BeginDownload(s.core, o), true), Pipe, leave, s')
    case Progress(stage, ch) =>
      && w.Piping? && PipelineStage(stage) && ch !in s.threads
      && var (c, save) := Report(s.core, o, stage);
      && s'.core == c
      && s'.threads == if save then s.threads[ch := ToSave(c, o, Detached)] else s.threads
    case Finish(out) => w.Piping? && EditStep(s, t, o, FinishDownload(s.core, o, out), Leave(kind), leave, s')
    case Fetched(title, duration) =>
      w.Fetching? && EditStep(s, t, o, TitleFetched(s.core, o, title, duration), Leave(kind), leave, s')
    case Unsupported(msg) =>
      w.Fetching? && EditStep(s, t, o, TitleUnsupported(s.core, o, msg), Leave(kind), leave, s')
    case FetchFailed =>
      && w.Fetching? && s'.core == s.core
      && s'.threads == s.threads[t := Owns(kind, o, NextFetch(s.core, o, w.n))]
    case Waited(interrupted) =>
      // the context the select waits on may be one that a requeue has replaced since
      && w.Delaying? && s'.core == s.core
      && s'.threads == s.threads[t := if interrupted then leave else Owns(kind, o, Fetching(w.n + 1))]
    case Exhausted =>
      w.GivingUp? && s'.core == TitleExhausted(s.core, o) && s'.threads == s.threads[t := leave]
    case MarkFailed =>
      w.Marking? && s'.core == MarkUnpersistable(s.core, o) && s'.threads == s.threads[t := leave]
    case Pick(_) => false
    case Release => false
    case Broadcast => false
  }

  predicate WorkNext(s: State, t: Tid, wk: WorkStep, s': State) {
    && t in s.threads && s'.shelf == s.shelf
    && match s.threads[t]
       case Loop(kind, l) =>
         if wk.Pick? then l.Top? && PickStep(s, t, kind, wk.choice, s')
         else
           && wk.Broadcast? && l.Waking? && s'.core == s.core && s'.guard == s.guard
           && s'.threads == WakeAll(s.threads)[t := Loop(kind, Top)]
       case Owns(kind, o, w) =>
         && o < |s.core.objs|
         && if wk.Release? then w.Leaving? && ReleaseStep(s, t, kind, o, s')
            else s'.guard == s.guard && OwnStep(s, t, kind, o, w, wk, s')
       case _ => false
  }

  // ---- saves ----

  predicate SaveNext(s: State, t: Tid, sv: SaveStep, s': State) {
    && t in s.threads && s.threads[t].Storing? && s'.core == s.core
    && var pc := s.threads[t];
    match sv
    case SaveBegin =>
      && pc.at.Waiting? && pc.o < |s.core.objs| && pc.o !in s.guard.lock && s'.shelf == s.shelf
      && var j := Snapshot(s.core, pc.o);
      if j.None? then s'.threads == s.threads[t := AfterSave(pc.o, pc.k, true)] && s'.guard == s.guard
      else
        && s'.threads == s.threads[t := pc.(at := Writing(j.value, s.core.objs[pc.o].ver))]
        && s'.guard == s.guard.(lock := s.guard.lock[pc.o := t])
    case SaveEnd(wrote, ok) =>
      && pc.at.Writing? && (ok ==> wrote)
      && s'.threads == s.threads[t := AfterSave(pc.o, pc.k, ok)]
      && s'.guard == s.guard.(lock := s.guard.lock - {pc.o})
      && s'.shelf == if wrote then s.shelf.(disk := s.shelf.disk[pc.at.snap.id := Stored(pc.o, pc.at.ver, pc.at.snap)])
                     else s.shelf
  }

  // ---- removals ----

  /** finalizeDeletion from its call to the section that ends the removal. */
  predicate RemoverStep(s: State, t: Tid, pc: Pc, rm: RemoveStep, s': State)
    requires pc.Remover? && pc.o < |s.core.objs|
  {
    var o, id := pc.o, s.core.objs[pc.o].job.id;
    match rm
    case Announce =>
      && pc.r.Announcing? && s'.core == s.core && s'.guard == s.guard && s'.shelf == s.shelf
      && s'.threads == WakeAll(s.threads)[t := pc.(r := RemoveAt.Checking)]
    case Check =>
      && pc.r.Checking? && o !in s.guard.lock && s'.core == s.core && s'.shelf == s.shelf
      && if !Finalizable(s.core, o) then
           // the early return answers nil without touching any attempt
           s'.threads == s.threads[t := AfterFin(pc.f, |s.guard.atts|, false)] && s'.guard == s.guard
         else if s.core.objs[o].removal.None? then
           s'.threads == s.threads && s'.guard == s.guard.(crashed := true)
         else
           && s'.threads == s.threads[t := pc.(r := Removing(s.core.objs[o].removal.value))]
           && s'.guard == s.guard.(lock := s.guard.lock[o := t])
    case RemoveOk =>
      && pc.r.Removing? && s'.core == s.core && s'.guard == s.guard
      && s'.threads == s.threads[t := pc.(r := Removed(pc.r.a))]
      && s'.shelf == s.shelf.(disk := s.shelf.disk - {id}, gone := s.shelf.gone + {o})
    case RemoveFailed(recordLost) =>
      && pc.r.Removing? && s'.core == s.core && s'.guard == s.guard
      && s'.threads == s.threads[t := pc.(r := Stuck(pc.r.a))]
      && s'.shelf == if recordLost then s.shelf.(disk := s.shelf.disk - {id}) else s.shelf
    case TakeOut =>
      && pc.r.Removed? && s'.core == Unregister(s.core, o) && s'.shelf == s.shelf
      && s'.threads == s.threads[t := Closer(o, pc.r.a, false, pc.f)]
      && s'.guard == s.guard.(fin := s.guard.fin - {o})
    case GiveBack(ch) =>
      && pc.r.Stuck? && ch !in s.threads && s'.shelf == s.shelf
      && var (c, save) := Restore(s.core, o);
      && s'.core == c
      && s'.guard == s.guard.(fin := s.guard.fin - {o})
      && s'.threads == if save then s.threads[t := Closer(o, pc.r.a, true, pc.f)][ch := ToSave(c, o, Detached)]
                       else s.threads[t := Closer(o, pc.r.a, true, pc.f)]
    case CloseDone => false
  }

  predicate RemoveNext(s: State, t: Tid, rm: RemoveStep, s': State) {
    && t in s.threads
    && match s.threads[t]
       case Remover(o, r, f) => o < |s.core.objs| && RemoverStep(s, t, s.threads[t], rm, s')
       case Closer(o, a, failed, f) =>
         && rm.CloseDone? && a < |s.guard.atts| && s'.core == s.core && s'.shelf == s.shelf
         && s'.threads == s.threads[t := AfterFin(f, a, failed)]
         && s'.guard == Guard(s.guard.lock - {o}, s.guard.fin,
                              s.guard.atts[a := s.guard.atts[a].(done := true, failed := failed)],
                              s.guard.crashed || s.guard.atts[a].done)
       case _ => false
  }

  // ---- API callers ----

  predicate WorkersGone(threads: map<Tid, Pc>) {
    && 0 in threads && 1 in threads && 2 in threads
    && threads[0] == Loop(Down, Exited) && threads[1] == threads[2] == Loop(Title, Exited)
  }

  /** The caller's next pc, no other change. */
  predicate OnlyCaller(s: State, t: Tid, pc: Pc, s': State) {
    s'.core == s.core && s'.guard == s.guard && s'.shelf == s.shelf && s'.threads == s.threads[t := pc]
  }

  /** A requeue by thread t: broadcast and a detached save. */
  predicate RequeueStep(s: State, t: Tid, c: Core, o: Oid, reply: Reply, ch: Tid, s': State) {
    && o < |c.objs| && ch !in s.threads
    && s'.core == c && s'.guard == s.guard && s'.shelf == s.shelf
    && s'.threads == WakeAll(s.threads)[t := Returned(reply)][ch := ToSave(c, o, Detached)]
  }

  predicate SubmitStep(s: State, t: Tid, id: Id, now: Time, wrote: bool, ok: bool, ch: Tid, s': State)
    requires RegOk(s.core)
  {
    var (c, out) := Submit(s.core, id, now, ok);
    var rec := Stored(|s.core.objs|, 0, NewRec(id, now, s.core.lastSeq + 1).job);
    match out
    case SubmitAwait(att) =>
      if att.Some? then OnlyCaller(s, t, Client(SubmitWaiting(id, att.value)), s')
      else s' == s.(guard := s.guard.(crashed := true))
    case SubmitRequeued(o) => RequeueStep(s, t, c, o, Submitted(out), ch, s')
    case SubmitStorage =>
      && s'.core == c && s'.guard == s.guard && s'.threads == s.threads[t := Returned(Submitted(out))]
      && s'.shelf == if wrote then Shelf(s.shelf.disk[id := rec], s.shelf.gone, s.shelf.leftover + {id}) else s.shelf
    case SubmitNew(_) =>
      && s'.core == c && s'.guard == s.guard
      && s'.threads == WakeAll(s.threads)[t := Returned(Submitted(out))]
      && s'.shelf == Shelf(s.shelf.disk[id := rec], s.shelf.gone, s.shelf.leftover - {id})
    case _ => OnlyCaller(s, t, Returned(Submitted(out)), s')
  }

  predicate RetryStep(s: State, t: Tid, id: Id, ch: Tid, s': State)
    requires RegOk(s.core)
  {
    var (c, out) := Retry(s.core, id);
    if out.RetryDone? then RequeueStep(s, t, c, out.o, Retried(out), ch, s')
    else OnlyCaller(s, t, Returned(Retried(out)), s')
  }

  predicate DeleteStep(s: State, t: Tid, id: Id, s': State)
    requires RegOk(s.core)
  {
    var a := |s.guard.atts|;
    var (c, out) := Delete(s.core, id, a);
    match out
    case DeleteNotFound => OnlyCaller(s, t, Returned(DeleteMissing), s')
    case DeleteJoin(att) =>
      if att.Some? then OnlyCaller(s, t, Client(DeleteWaiting(att.value)), s')
      else s' == s.(guard := s.guard.(crashed := true))
    case DeleteAwait(o) =>
      && s'.core == c && s'.shelf == s.shelf
      && s'.threads == s.threads[t := Client(DeleteWaiting(a))]
      && s'.guard == s.guard.(atts := s.guard.atts + [Attempt(o, false, false)])
    case DeleteDirect(o) =>
      && s'.core == c && s'.shelf == s.shelf
      && s'.threads == s.threads[t := Remover(o, RemoveAt.Checking, ForCaller)]
      && s'.guard == s.guard.(atts := s.guard.atts + [Attempt(o, false, false)], fin := s.guard.fin[o := t])
  }

  predicate ListStep(s: State, t: Tid, todo: seq<Oid>, size: Option<int>, ch: Tid, s': State) {
    if todo == [] then OnlyCaller(s, t, Returned(Listed), s')
    else
      && todo[0] < |s.core.objs| && ch !in s.threads && s'.guard == s.guard && s'.shelf == s.shelf
      && var (c, save) := ListCheck(s.core, todo[0], size);
      && var pc := Client(Request.Checking(todo[1..]));
      && s'.core == c
      && s'.threads == if save then s.threads[t := pc][ch := ToSave(c, todo[0], Detached)] else s.threads[t := pc]
  }

  function Versions(c: Core, order: seq<Oid>): seq<(Oid, nat)> {
    seq(|order|, i requires 0 <= i < |order| => (order[i], if order[i] < |c.objs| then c.objs[order[i]].ver else 0))
  }

  predicate CloseStep(s: State, t: Tid, s': State) {
    if s.core.closing then OnlyCaller(s, t, Returned(ClosedNow), s')
    else
      && s'.core == s.core.(closing := true) && s'.guard == s.guard && s'.shelf == s.shelf
      && s'.threads == WakeAll(s.threads)[t := Client(CloseWaiting)]
  }

  predicate CallerNext(s: State, t: Tid, ca: CallerStep, s': State) {
    && RegOk(s.core) && t in s.threads && s.threads[t].Client?
    && var q := s.threads[t].q;
    match ca
    case SubmitOnce(now, wrote, ok, ch) =>
      q.Submitting? && (ok ==> wrote) && SubmitStep(s, t, q.id, now, wrote, ok, ch, s')
    case SubmitWake(timeout) =>
      && q.SubmitWaiting? && q.a < |s.guard.atts| && (timeout || s.guard.atts[q.a].done)
      && OnlyCaller(s, t, if timeout then Returned(TimedOut) else Client(Submitting(q.id)), s')
    case RetryOnce(ch) => q.Retrying? && RetryStep(s, t, q.id, ch, s')
    case DeleteOnce => q.Deleting? && DeleteStep(s, t, q.id, s')
    case DeleteWake(timeout) =>
      // waitRemoval: a closed attempt answers with its error; patience may end first
      && q.DeleteWaiting? && q.a < |s.guard.atts| && (timeout || s.guard.atts[q.a].done)
      && OnlyCaller(s, t, Returned(if timeout then TimedOut else DeleteEnded(q.a, s.guard.atts[q.a].failed)), s')
    case ListReady(todo) =>
      && q.Listing? && (set o | o in todo) == ReadyJobs(s.core)
      && OnlyCaller(s, t, Client(Request.Checking(todo)), s')
    case ListOne(size, ch) => q.Checking? && ListStep(s, t, q.todo, size, ch, s')
    case CloseBegin => q.Closing? && CloseStep(s, t, s')
    case CloseEnd(order) =>
      && q.CloseWaiting? && WorkersGone(s.threads) && (set o | o in order) == InterruptedJobs(s.core)
      && s'.core == Interrupt(s.core) && s'.guard == s.guard && s'.shelf == s.shelf
      && s'.threads == s.threads[t := CloseNext(Versions(Interrupt(s.core), order))]
  }

  // ---- the machine ----

  /** A client request arrives on a new thread. */
  predicate CallNext(s: State, t: Tid, q: Request, s': State) {
    && t !in s.threads && (q.Submitting? || q.Retrying? || q.Deleting? || q.Listing? || q.Closing?)
    && OnlyCaller(s, t, Client(q), s')
  }

  /** s' is the state after action a; the action fixes every nondeterministic answer. */
  predicate Step(s: State, a: Action, s': State) {
    match a
    case WorkAct(t, wk) => WorkNext(s, t, wk, s')
    case SaveAct(t, sv) => SaveNext(s, t, sv, s')
    case RemoveAct(t, rm) => RemoveNext(s, t, rm, s')
    case CallerAct(t, ca) => CallerNext(s, t, ca, s')
    case Call(t, q) => CallNext(s, t, q, s')
  }
}
