/**
  Limits that are reached. The admission bound is tight: runs from an empty registry get to 17
  unfinished jobs in both ways that Admission allows. Either a title worker fails a job that the
  download worker has picked but not started, the slot is given away, and the download starts
  all the same; or the job fails while its download runs, because its title could not be saved,
  and the next progress report sets it back. And both title workers can be parked although the
  job in flight has no title yet.
 */
module Witness {
  import opened Model
  import opened JobCore
  import opened JobMachine
  import opened Runs
  import opened TitleWakeup
  import opened Liveness

  /** A registered job that waits, untouched, in the queue. */
  predicate Idle(c: Core, o: Oid) {
    Registered(c, o) && var r := c.objs[o];
    r.job.status.Queued? && !r.deleting && !r.active && !r.fetching && r.titleTries == 0 && r.job.title == "" &&
      r.order == o + 1
  }

  /** n registered jobs with ids shorter than n; all but perhaps the first wait in the queue. */
  ghost predicate Crowd(c: Core, n: nat) {
    && RegOk(c) && !c.closing && |c.objs| == |c.reg| == c.lastSeq == n
    && (forall id | id in c.reg :: |id| < n)
    && (forall o | 1 <= o < n :: Idle(c, o))
    && (n > 0 ==> Registered(c, 0))
  }

  function Name(n: nat): (id: Id)
    ensures |id| == n
  {
    seq(n, i => 'x')
  }

  // ---- crowds ----

  lemma RegisterCrowd(c: Core, n: nat)
    requires Crowd(c, n) && (n == 0 || Registered(c, 0))
    ensures Name(n) !in c.reg && Crowd(Register(c, Name(n), 0), n + 1) && Idle(Register(c, Name(n), 0), n)
  {
    var c' := Register(c, Name(n), 0);
    forall o | 1 <= o < n ensures Idle(c', o) {
      assert Idle(c, o);
    }
  }

  lemma EditCrowd(c: Core, n: nat, r: JobRec)
    requires Crowd(c, n) && n > 0 && r.job.id == c.objs[0].job.id
    ensures Crowd(SetObj(c, 0, r), n)
  {
    forall o | 1 <= o < n ensures Idle(SetObj(c, 0, r), o) {
      assert Idle(c, o);
    }
  }

  /** Every job but the first counts, and the first counts when it is unfinished. */
  lemma CrowdCounts(c: Core, n: nat)
    requires Crowd(c, n) && n > 0
    ensures |UnfinishedIds(c)| == if Counts(c.objs[0]) then n else n - 1
  {
    forall id | id in c.reg && c.reg[id] != 0 ensures id in UnfinishedIds(c) {
      assert Idle(c, c.reg[id]);
    }
    assert UnfinishedIds(c) == if Counts(c.objs[0]) then c.reg.Keys else c.reg.Keys - {c.objs[0].job.id};
  }

  lemma FailedCrowd(c: Core, n: nat, msg: string)
    requires Crowd(c, n) && n > 0
    ensures var c' := SetObj(c, 0, Fail(c.objs[0], msg)); Crowd(c', n) && |UnfinishedIds(c')| == n - 1
  {
    EditCrowd(c, n, Fail(c.objs[0], msg));
    CrowdCounts(SetObj(c, 0, Fail(c.objs[0], msg)), n);
  }

  lemma RunningCrowd(c: Core, n: nat, status: Status)
    requires Crowd(c, n) && n > 0 && !c.objs[0].deleting && InPipeline(status)
    ensures var c' := SetObj(c, 0, Put(c.objs[0], c.objs[0].job.(status := status)));
      Crowd(c', n) && |UnfinishedIds(c')| == n
  {
    var r := Put(c.objs[0], c.objs[0].job.(status := status));
    EditCrowd(c, n, r);
    CrowdCounts(SetObj(c, 0, r), n);
  }

  lemma FirstIsNext(c: Core, n: nat)
    requires Crowd(c, n) && n > 0 && c.objs[0].order == 1
    ensures Pickable(c, 0) ==> PickQueued(c, Some(0))
    ensures TitlePickable(c, 0) ==> PickTitle(c, Some(0))
  {
    forall o | 0 <= o < n ensures c.objs[0].order <= c.objs[o].order {
      assert o > 0 ==> Idle(c, o);
    }
  }

  // ---- states along the runs ----

  const EMPTY := State(Core([], map[], 0, false), WORKERS, Guard(map[], map[], [], false), Shelf(map[], {}, {}))

  function Called(s: State, t: Tid, id: Id): State {
    s.(threads := s.threads[t := Client(Submitting(id))])
  }

  function Admitted(s: State, t: Tid, id: Id): State {
    var o := |s.core.objs|;
    State(Register(s.core, id, 0), WakeAll(s.threads)[t := Returned(Submitted(SubmitNew(o)))], s.guard,
          Shelf(s.shelf.disk[id := Stored(o, 0, NewRec(id, 0, s.core.lastSeq + 1).job)], s.shelf.gone,
                s.shelf.leftover - {id}))
  }

  function Orphaned(s: State, t: Tid, id: Id): State {
    var rec := Stored(|s.core.objs|, 0, NewRec(id, 0, s.core.lastSeq + 1).job);
    State(s.core.(lastSeq := s.core.lastSeq + 1), s.threads[t := Returned(Submitted(SubmitStorage))], s.guard,
          Shelf(s.shelf.disk[id := rec], s.shelf.gone, s.shelf.leftover + {id}))
  }

  /** Worker t takes the first job. */
  function Taken(s: State, t: Tid, kind: Kind): State
    requires |s.core.objs| > 0
  {
    s.(core := Activate(s.core, kind, 0),
       threads := s.threads[t := Owns(kind, 0, if kind.Down? then Picked else Fetching(1))])
  }

  /** A worker edits the first job and goes on to save it. */
  function Edited(s: State, t: Tid, r: JobRec, k: After): State
    requires |s.core.objs| > 0
  {
    var c := SetObj(s.core, 0, r);
    s.(core := c, threads := s.threads[t := ToSave(c, 0, k)])
  }

  function Rejected(s: State): State
    requires |s.core.objs| > 0
  {
    Edited(s, 1, Fail(s.core.objs[0], "unsupported"), Leave(Title))
  }

  function Titled(s: State): State
    requires |s.core.objs| > 0
  {
    Edited(s, 1, Put(s.core.objs[0], s.core.objs[0].job.(title := "title")), Leave(Title))
  }

  function Begun(s: State): State
    requires |s.core.objs| > 0
  {
    Edited(s, 0, Put(s.core.objs[0], s.core.objs[0].job.(status := Downloading)), Pipe)
  }

  /** Worker t has saved the first job, or tried to. */
  function Kept(s: State, t: Tid, k: After, ok: bool): State
    requires |s.core.objs| > 0
  {
    var job, ver := s.core.objs[0].job, s.core.objs[0].ver;
    s.(threads := s.threads[t := AfterSave(0, k, ok)],
       shelf := if ok then s.shelf.(disk := s.shelf.disk[job.id := Stored(0, ver, job)]) else s.shelf)
  }

  function MarkedLost(s: State): State
    requires |s.core.objs| > 0
  {
    s.(core := SetObj(s.core, 0, Fail(s.core.objs[0], UNPERSISTABLE)),
       threads := s.threads[1 := Owns(Title, 0, Leaving)])
  }

  function Reported(s: State, ch: Tid): State
    requires |s.core.objs| > 0
  {
    Edited(s, ch, Put(s.core.objs[0], s.core.objs[0].job.(status := Processing)), Detached)
  }

  /** A title worker has let the first job go, broadcast, and is back at the top of its loop. */
  function LetGo(s: State): State
    requires |s.core.objs| > 0
  {
    s.(core := SetObj(s.core, 0, s.core.objs[0].(fetching := false)),
       threads := WakeAll(s.threads[1 := Loop(Title, Waking)])[1 := Loop(Title, Top)])
  }

  function ParkedAt(s: State, t: Tid): State {
    s.(threads := s.threads[t := Loop(Title, Parked)])
  }

  // ---- runs, one step at a time ----

  datatype Trace = Trace(ss: seq<State>, acts: seq<Action>)

  /** The trace is a run from the empty registry to s. */
  ghost predicate Reaches(tr: Trace, s: State) {
    Run(tr.ss, tr.acts) && tr.ss[0] == EMPTY && tr.ss[|tr.ss| - 1] == s
  }

  lemma EmptyReached()
    ensures Reaches(Trace([EMPTY], []), EMPTY)
  {
  }

  lemma Extend(tr: Trace, s: State, a: Action, s': State) returns (tr': Trace)
    requires Reaches(tr, s) && Step(s, a, s')
    ensures Reaches(tr', s')
  {
    var ss', acts' := tr.ss + [s'], tr.acts + [a];
    forall i | 0 <= i < |acts'| ensures Moves(ss', acts', i) {
      if i < |tr.acts| {
        assert Moves(tr.ss, tr.acts, i);
        assert ss'[i] == tr.ss[i] && ss'[i + 1] == tr.ss[i + 1] && acts'[i] == tr.acts[i];
      }
    }
    tr' := Trace(ss', acts');
  }

  lemma CallStep(tr: Trace, s: State, t: Tid, id: Id) returns (tr': Trace)
    requires Reaches(tr, s) && t !in s.threads
    ensures Reaches(tr', Called(s, t, id))
  {
    tr' := Extend(tr, s, Call(t, Submitting(id)), Called(s, t, id));
  }

  predicate Admissible(s: State, t: Tid, id: Id) {
    && RegOk(s.core) && !s.core.closing && id !in s.core.reg && |UnfinishedIds(s.core)| < MAX_UNFINISHED
    && t in s.threads && s.threads[t] == Client(Submitting(id))
  }

  lemma AdmitStep(tr: Trace, s: State, t: Tid, id: Id) returns (tr': Trace)
    requires Reaches(tr, s) && Admissible(s, t, id)
    ensures Reaches(tr', Admitted(s, t, id))
  {
    tr' := Extend(tr, s, CallerAct(t, SubmitOnce(0, true, true, 0)), Admitted(s, t, id));
  }

  lemma OrphanStep(tr: Trace, s: State, t: Tid, id: Id) returns (tr': Trace)
    requires Reaches(tr, s) && Admissible(s, t, id)
    ensures Reaches(tr', Orphaned(s, t, id))
  {
    tr' := Extend(tr, s, CallerAct(t, SubmitOnce(0, true, false, 0)), Orphaned(s, t, id));
  }

  lemma TakeStep(tr: Trace, s: State, t: Tid, kind: Kind) returns (tr': Trace)
    requires Reaches(tr, s) && t in s.threads && s.threads[t] == Loop(kind, Top)
    requires !s.core.closing && |s.core.objs| > 0 && Chosen(s.core, kind, Some(0))
    ensures Reaches(tr', Taken(s, t, kind))
  {
    tr' := Extend(tr, s, WorkAct(t, Pick(Some(0))), Taken(s, t, kind));
  }

  lemma RejectStep(tr: Trace, s: State) returns (tr': Trace)
    requires Reaches(tr, s) && 1 in s.threads && s.threads[1] == Owns(Title, 0, Fetching(1))
    requires Registered(s.core, 0) && !s.core.objs[0].deleting && s.core.objs[0].job.status.Queued?
    ensures Reaches(tr', Rejected(s))
  {
    tr' := Extend(tr, s, WorkAct(1, Unsupported("unsupported")), Rejected(s));
  }

  lemma TitleStep(tr: Trace, s: State) returns (tr': Trace)
    requires Reaches(tr, s) && 1 in s.threads && s.threads[1] == Owns(Title, 0, Fetching(1))
    requires Registered(s.core, 0) && !s.core.objs[0].deleting && s.core.objs[0].job.title == ""
    ensures Reaches(tr', Titled(s))
  {
    assert s.core.objs[0].job.(title := "title", duration := s.core.objs[0].job.duration) ==
           s.core.objs[0].job.(title := "title");
    tr' := Extend(tr, s, WorkAct(1, Fetched("title", 0.0)), Titled(s));
  }

  lemma BeginStep(tr: Trace, s: State) returns (tr': Trace)
    requires Reaches(tr, s) && 0 in s.threads && s.threads[0] == Owns(Down, 0, Picked) && |s.core.objs| > 0
    ensures Reaches(tr', Begun(s))
  {
    tr' := Extend(tr, s, WorkAct(0, Begin), Begun(s));
  }

  /** Thread t saves the first job; nobody else is saving. */
  lemma SaveSteps(tr: Trace, s: State, t: Tid, base: nat, k: After, ok: bool) returns (tr': Trace)
    requires Reaches(tr, s) && t in s.threads && s.threads[t] == Storing(0, base, Waiting, k)
    requires Registered(s.core, 0) && !s.core.objs[0].deleting && s.guard.lock == map[]
    ensures Reaches(tr', Kept(s, t, k, ok))
  {
    var job, ver := s.core.objs[0].job, s.core.objs[0].ver;
    var writing := s.(threads := s.threads[t := Storing(0, base, Writing(job, ver), k)],
                      guard := s.guard.(lock := map[0 := t]));
    var tr1 := Extend(tr, s, SaveAct(t, SaveBegin), writing);
    assert writing.guard.lock - {0} == map[];
    assert Kept(s, t, k, ok).threads == writing.threads[t := AfterSave(0, k, ok)];
    tr' := Extend(tr1, writing, SaveAct(t, SaveEnd(ok, ok)), Kept(s, t, k, ok));
  }

  lemma MarkStep(tr: Trace, s: State) returns (tr': Trace)
    requires Reaches(tr, s) && 1 in s.threads && s.threads[1] == Owns(Title, 0, Marking)
    requires Registered(s.core, 0) && !s.core.objs[0].deleting
    ensures Reaches(tr', MarkedLost(s))
  {
    tr' := Extend(tr, s, WorkAct(1, MarkFailed), MarkedLost(s));
  }

  lemma ReportStep(tr: Trace, s: State, ch: Tid) returns (tr': Trace)
    requires Reaches(tr, s) && 0 in s.threads && s.threads[0] == Owns(Down, 0, Piping) && ch !in s.threads
    requires Registered(s.core, 0) && !s.core.objs[0].job.status.Processing?
    ensures Reaches(tr', Reported(s, ch))
  {
    tr' := Extend(tr, s, WorkAct(0, Progress(StageProcessing, ch)), Reported(s, ch));
  }

  lemma LetGoSteps(tr: Trace, s: State) returns (tr': Trace)
    requires Reaches(tr, s) && 1 in s.threads && s.threads[1] == Owns(Title, 0, Leaving)
    requires |s.core.objs| > 0 && !s.core.objs[0].deleting
    ensures Reaches(tr', LetGo(s))
  {
    var waking := s.(core := LetGo(s).core, threads := s.threads[1 := Loop(Title, Waking)]);
    var tr1 := Extend(tr, s, WorkAct(1, Release), waking);
    tr' := Extend(tr1, waking, WorkAct(1, Broadcast), LetGo(s));
  }

  lemma ParkStep(tr: Trace, s: State, t: Tid) returns (tr': Trace)
    requires Reaches(tr, s) && t in s.threads && s.threads[t] == Loop(Title, Top)
    requires !s.core.closing && PickTitle(s.core, None)
    ensures Reaches(tr', ParkedAt(s, t))
  {
    tr' := Extend(tr, s, WorkAct(t, Pick(None)), ParkedAt(s, t));
  }

  // ---- filling the queue ----

  /** No save is under way, and the three workers are where it says. */
  predicate Workers(s: State, down: Pc, title: Pc, other: Pc) {
    && 0 in s.threads && 1 in s.threads && 2 in s.threads && s.guard.lock == map[]
    && s.threads[0] == down && s.threads[1] == title && s.threads[2] == other
  }

  const DOWN_TOP := Loop(Down, Top)
  const TITLE_TOP := Loop(Title, Top)

  /** n queued jobs and idle workers. */
  ghost predicate Filled(s: State, n: nat) {
    Crowd(s.core, n) && (n > 0 ==> Idle(s.core, 0)) && Workers(s, DOWN_TOP, TITLE_TOP, TITLE_TOP)
  }

  lemma EmptyFilled()
    ensures Filled(EMPTY, 0)
  {
  }

  lemma CrowdHasRoom(c: Core, n: nat)
    requires Crowd(c, n) && n < MAX_UNFINISHED
    ensures |UnfinishedIds(c)| < MAX_UNFINISHED
  {
    if n > 0 {
      CrowdCounts(c, n);
    } else {
      assert UnfinishedIds(c) == {};
    }
  }

  /** A caller on a new thread submits a new video, and is admitted. */
  lemma SubmitSteps(tr: Trace, s: State, n: nat) returns (tr': Trace, t: Tid)
    requires Reaches(tr, s) && Crowd(s.core, n) && |UnfinishedIds(s.core)| < MAX_UNFINISHED
    ensures t > 2 && t !in s.threads && Reaches(tr', Admitted(Called(s, t, Name(n)), t, Name(n)))
  {
    t := NewThread(s);
    tr' := CallStep(tr, s, t, Name(n));
    CalledAdmissible(s, t, n);
    tr' := AdmitStep(tr', Called(s, t, Name(n)), t, Name(n));
  }

  lemma NewThread(s: State) returns (t: Tid)
    ensures t > 2 && t !in s.threads
  {
    t := FreshTid(s.threads.Keys + {0, 1, 2});
  }

  lemma CalledAdmissible(s: State, t: Tid, n: nat)
    requires Crowd(s.core, n) && |UnfinishedIds(s.core)| < MAX_UNFINISHED
    ensures Admissible(Called(s, t, Name(n)), t, Name(n))
  {
    RegisterCrowd(s.core, n);
  }

  lemma AdmittedWorkers(s: State, t: Tid, id: Id, down: Pc, title: Pc, other: Pc)
    requires Workers(s, down, title, other) && t > 2
    ensures Workers(Admitted(Called(s, t, id), t, id), Woken(down), Woken(title), Woken(other))
  {
  }

  lemma AdmittedFilled(s: State, n: nat, t: Tid)
    requires Filled(s, n) && t > 2
    ensures Filled(Admitted(Called(s, t, Name(n)), t, Name(n)), n + 1)
  {
    AdmittedWorkers(s, t, Name(n), DOWN_TOP, TITLE_TOP, TITLE_TOP);
    RegisterCrowd(s.core, n);
  }

  /** n submissions of new videos, one after the other. */
  lemma {:induction false} Fill(n: nat) returns (tr: Trace, s: State)
    requires n <= MAX_UNFINISHED
    ensures Reaches(tr, s) && Filled(s, n)
  {
    if n == 0 {
      EmptyReached();
      EmptyFilled();
      tr, s := Trace([EMPTY], []), EMPTY;
    } else {
      var tr0, s0 := Fill(n - 1);
      CrowdHasRoom(s0.core, n - 1);
      var t: Tid;
      tr, t := SubmitSteps(tr0, s0, n - 1);
      s := Admitted(Called(s0, t, Name(n - 1)), t, Name(n - 1));
      AdmittedFilled(s0, n - 1, t);
    }
  }

  // ---- both kinds of worker take the first job ----

  /** The first job waits, was not tried for its title, and is worked on as it says. */
  ghost predicate First(s: State, n: nat, active: bool, fetching: bool) {
    && Crowd(s.core, n) && n > 0
    && var r := s.core.objs[0];
    && r.active == active && r.fetching == fetching && !r.deleting && r.titleTries == 0 && r.order == 1
    && r.job.title == "" && r.job.status.Queued?
  }

  lemma FirstPicked(s: State, n: nat)
    requires Filled(s, n) && n > 0
    ensures Chosen(s.core, Down, Some(0)) && First(Taken(s, 0, Down), n, true, false)
    ensures Workers(Taken(s, 0, Down), Owns(Down, 0, Picked), TITLE_TOP, TITLE_TOP)
  {
    FirstIsNext(s.core, n);
    EditCrowd(s.core, n, s.core.objs[0].(active := true));
  }

  lemma FirstFetched(s: State, n: nat, down: Pc)
    requires First(s, n, true, false) && Workers(s, down, TITLE_TOP, TITLE_TOP)
    ensures Chosen(s.core, Title, Some(0)) && First(Taken(s, 1, Title), n, true, true)
    ensures Workers(Taken(s, 1, Title), down, Owns(Title, 0, Fetching(1)), TITLE_TOP)
  {
    FirstIsNext(s.core, n);
    EditCrowd(s.core, n, s.core.objs[0].(fetching := true));
  }

  /** n jobs, the first one picked for download while its title is being fetched. */
  ghost predicate TakenTwice(s: State, n: nat) {
    First(s, n, true, true) && Workers(s, Owns(Down, 0, Picked), Owns(Title, 0, Fetching(1)), TITLE_TOP)
  }

  lemma TakeTwice(n: nat) returns (tr: Trace, s: State)
    requires 0 < n <= MAX_UNFINISHED
    ensures Reaches(tr, s) && TakenTwice(s, n)
  {
    tr, s := Fill(n);
    FirstPicked(s, n);
    tr := TakeStep(tr, s, 0, Down);
    s := Taken(s, 0, Down);
    FirstFetched(s, n, Owns(Down, 0, Picked));
    tr := TakeStep(tr, s, 1, Title);
    s := Taken(s, 1, Title);
  }

  // ---- the run to seventeen ----

  /** The first job failed after it was picked; it does not count. */
  ghost predicate FirstFailed(s: State, n: nat, down: Pc) {
    && Crowd(s.core, n) && n > 0 && |UnfinishedIds(s.core)| == n - 1
    && 0 in s.threads && s.threads[0] == down && !s.core.objs[0].deleting && s.core.objs[0].job.status.Failed?
  }

  lemma RejectedFails(s: State, n: nat)
    requires TakenTwice(s, n)
    ensures FirstFailed(Rejected(s), n, Owns(Down, 0, Picked))
  {
    FailedCrowd(s.core, n, "unsupported");
  }

  lemma AdmittedAfter(s: State, n: nat, t: Tid, down: Pc)
    requires FirstFailed(s, n, down) && t > 2 && !down.Loop?
    ensures var s' := Admitted(Called(s, t, Name(n)), t, Name(n));
      && Crowd(s'.core, n + 1) && 0 in s'.threads && s'.threads[0] == down
      && !s'.core.objs[0].deleting && s'.core.objs[0].job.status.Failed?
  {
    RegisterCrowd(s.core, n);
  }

  /** Seventeen unfinished jobs, from none, without a failing write or a deletion. */
  lemma SeventeenIsReached() returns (tr: Trace, s: State)
    ensures Reaches(tr, s) && |UnfinishedIds(s.core)| == MAX_UNFINISHED + 1
  {
    var n, t := MAX_UNFINISHED, 0;
    tr, s := TakeTwice(n);
    tr := RejectStep(tr, s);
    RejectedFails(s, n);
    s := Rejected(s);
    tr, t := SubmitSteps(tr, s, n);
    AdmittedAfter(s, n, t, Owns(Down, 0, Picked));
    s := Admitted(Called(s, t, Name(n)), t, Name(n));
    tr := BeginStep(tr, s);
    RunningCrowd(s.core, n + 1, Downloading);
    s := Begun(s);
  }

  // ---- the other run to seventeen ----

  /** The first job's download is in flight while its title is being fetched. */
  ghost predicate InFlight(s: State, n: nat, title: Pc) {
    && Crowd(s.core, n) && n > 0 && Workers(s, Owns(Down, 0, Piping), title, TITLE_TOP)
    && !s.core.objs[0].deleting
  }

  lemma BegunFlies(s: State, n: nat)
    requires TakenTwice(s, n)
    ensures InFlight(Kept(Begun(s), 0, Pipe, true), n, Owns(Title, 0, Fetching(1)))
    ensures Begun(s).core.objs[0].job.title == ""
  {
    RunningCrowd(s.core, n, Downloading);
  }

  lemma TitleIsLost(s: State, n: nat)
    requires InFlight(s, n, Owns(Title, 0, Fetching(1)))
    ensures InFlight(Kept(Titled(s), 1, Leave(Title), false), n, Owns(Title, 0, Marking))
  {
    EditCrowd(s.core, n, Put(s.core.objs[0], s.core.objs[0].job.(title := "title")));
  }

  lemma MarkedFails(s: State, n: nat, title: Pc)
    requires InFlight(s, n, title)
    ensures FirstFailed(MarkedLost(s), n, Owns(Down, 0, Piping))
  {
    FailedCrowd(s.core, n, UNPERSISTABLE);
  }

  lemma FlySteps(n: nat) returns (tr: Trace, s: State)
    requires 0 < n <= MAX_UNFINISHED
    ensures Reaches(tr, s) && InFlight(s, n, Owns(Title, 0, Fetching(1))) && s.core.objs[0].job.title == ""
  {
    tr, s := TakeTwice(n);
    tr := BeginStep(tr, s);
    BegunFlies(s, n);
    s := Begun(s);
    tr := SaveSteps(tr, s, 0, s.core.objs[0].ver, Pipe, true);
    s := Kept(s, 0, Pipe, true);
  }

  lemma LoseSteps(n: nat) returns (tr: Trace, s: State)
    requires 0 < n <= MAX_UNFINISHED
    ensures Reaches(tr, s) && FirstFailed(s, n, Owns(Down, 0, Piping))
  {
    tr, s := FlySteps(n);
    tr := TitleStep(tr, s);
    TitleIsLost(s, n);
    s := Titled(s);
    tr := SaveSteps(tr, s, 1, s.core.objs[0].ver, Leave(Title), false);
    s := Kept(s, 1, Leave(Title), false);
    tr := MarkStep(tr, s);
    MarkedFails(s, n, Owns(Title, 0, Marking));
    s := MarkedLost(s);
  }

  /** Seventeen again, although every download that started still counted when it did. */
  lemma SeventeenByReport() returns (tr: Trace, s: State)
    ensures Reaches(tr, s) && |UnfinishedIds(s.core)| == MAX_UNFINISHED + 1
  {
    var n, t := MAX_UNFINISHED, 0;
    tr, s := LoseSteps(n);
    tr, t := SubmitSteps(tr, s, n);
    AdmittedAfter(s, n, t, Owns(Down, 0, Piping));
    s := Admitted(Called(s, t, Name(n)), t, Name(n));
    t := NewThread(s);
    tr := ReportStep(tr, s, t);
    RunningCrowd(s.core, n + 1, Processing);
    s := Reported(s, t);
  }

  // ---- the run to a missed title ----

  /** The only job failed after it was picked, the title worker is at pc with it. */
  ghost predicate OnlyFailed(s: State, title: Pc, fetching: bool) {
    && |s.core.objs| == 1 && Registered(s.core, 0) && !s.core.closing
    && Workers(s, Owns(Down, 0, Picked), title, TITLE_TOP)
    && var r := s.core.objs[0];
    && r.job.status.Failed? && r.job.title == "" && !r.deleting && r.titleTries == 0 && r.fetching == fetching
  }

  lemma RejectedOnly(s: State)
    requires TakenTwice(s, 1)
    ensures OnlyFailed(Rejected(s), Storing(0, Rejected(s).core.objs[0].ver, Waiting, Leave(Title)), true)
  {
  }

  lemma KeptOnly(s: State, base: nat)
    requires OnlyFailed(s, Storing(0, base, Waiting, Leave(Title)), true)
    ensures OnlyFailed(Kept(s, 1, Leave(Title), true), Owns(Title, 0, Leaving), true)
    ensures OnlyFailed(LetGo(Kept(s, 1, Leave(Title), true)), TITLE_TOP, false)
  {
  }

  lemma FailedStarts(s: State)
    requires OnlyFailed(s, TITLE_TOP, false)
    ensures PickTitle(s.core, None)
    ensures var s' := Begun(ParkedAt(ParkedAt(s, 1), 2));
      && TitlePickable(s'.core, 0) && !WakePending(s'.threads) && 1 in s'.threads && 2 in s'.threads
      && s'.threads[1] == Loop(Title, Parked) == s'.threads[2]
  {
  }

  lemma RejectedAlone() returns (tr: Trace, s: State)
    ensures Reaches(tr, s) && OnlyFailed(s, TITLE_TOP, false)
  {
    tr, s := TakeTwice(1);
    tr := RejectStep(tr, s);
    RejectedOnly(s);
    s := Rejected(s);
    tr := SaveSteps(tr, s, 1, s.core.objs[0].ver, Leave(Title), true);
    KeptOnly(s, s.core.objs[0].ver);
    s := Kept(s, 1, Leave(Title), true);
    tr := LetGoSteps(tr, s);
    s := LetGo(s);
  }

  /** Both title workers parked, no broadcast due, and a job without a title they could fetch. */
  lemma TitleIsMissed() returns (tr: Trace, s: State)
    ensures Reaches(tr, s) && TitlePickable(s.core, 0) && !WakePending(s.threads)
    ensures 1 in s.threads && 2 in s.threads && s.threads[1] == Loop(Title, Parked) == s.threads[2]
  {
    tr, s := RejectedAlone();
    FailedStarts(s);
    tr := ParkStep(tr, s, 1);
    tr := ParkStep(tr, ParkedAt(s, 1), 2);
    s := ParkedAt(ParkedAt(s, 1), 2);
    tr := BeginStep(tr, s);
    s := Begun(s);
  }

  // ---- a record without a card ----

  lemma NobodyCounts(s: State, t: Tid, id: Id)
    requires s == EMPTY
    ensures Admissible(Called(s, t, id), t, id)
  {
    assert UnfinishedIds(s.core) == {};
  }

  /** A Submit's Save writes the record and fails: the record stays, no job is registered. */
  lemma RecordIsLeft(id: Id) returns (tr: Trace, s: State)
    ensures Reaches(tr, s) && id in s.shelf.disk && id !in s.core.reg
  {
    EmptyReached();
    var t := NewThread(EMPTY);
    tr := CallStep(Trace([EMPTY], []), EMPTY, t, id);
    NobodyCounts(EMPTY, t, id);
    tr := OrphanStep(tr, Called(EMPTY, t, id), t, id);
    s := Orphaned(Called(EMPTY, t, id), t, id);
  }

  // ---- a card the store never hears of again ----

  /** One job, stored as queued; a title worker is at pc with it, and the other threads are callers. */
  ghost predicate OnlyQueued(s: State, pc: Pc) {
    && |s.core.objs| == 1 && Registered(s.core, 0) && !s.core.objs[0].deleting && !s.core.closing
    && Workers(s, DOWN_TOP, pc, TITLE_TOP)
    && (forall t | t in s.threads && t > 2 :: s.threads[t].Client? || s.threads[t].Returned?)
    && s.core.objs[0].job.id in s.shelf.disk && s.shelf.disk[s.core.objs[0].job.id].job.status.Queued?
  }

  lemma AdmittedQueued(t: Tid)
    requires t > 2
    ensures var s := Admitted(Called(EMPTY, t, Name(0)), t, Name(0));
      && OnlyQueued(s, TITLE_TOP) && Chosen(s.core, Title, Some(0))
      && OnlyQueued(Taken(s, 1, Title), Owns(Title, 0, Fetching(1)))
      && Taken(s, 1, Title).core.objs[0].job.status.Queued?
  {
  }

  lemma QueuedRejected(s: State)
    requires OnlyQueued(s, Owns(Title, 0, Fetching(1)))
    ensures OnlyQueued(Rejected(s), Storing(0, Rejected(s).core.objs[0].ver, Waiting, Leave(Title)))
    ensures OnlyQueued(Kept(Rejected(s), 1, Leave(Title), false), Owns(Title, 0, Marking))
  {
  }

  lemma MarkedQueued(s: State)
    requires OnlyQueued(s, Owns(Title, 0, Marking))
    ensures OnlyQueued(MarkedLost(s), Owns(Title, 0, Leaving))
    ensures OnlyQueued(LetGo(MarkedLost(s)), TITLE_TOP) && LetGo(MarkedLost(s)).core.objs[0].job.status.Failed?
  {
  }

  lemma FetchOnly() returns (tr: Trace, s: State)
    ensures Reaches(tr, s) && OnlyQueued(s, Owns(Title, 0, Fetching(1))) && s.core.objs[0].job.status.Queued?
  {
    EmptyReached();
    EmptyFilled();
    CrowdHasRoom(EMPTY.core, 0);
    var t: Tid;
    tr, t := SubmitSteps(Trace([EMPTY], []), EMPTY, 0);
    AdmittedQueued(t);
    s := Admitted(Called(EMPTY, t, Name(0)), t, Name(0));
    tr := TakeStep(tr, s, 1, Title);
    s := Taken(s, 1, Title);
  }

  /** Nothing is under way: workers are between jobs, all other threads are callers. */
  ghost predicate AllQuiet(s: State) {
    forall t | t in s.threads :: s.threads[t].Loop? || s.threads[t].Client? || s.threads[t].Returned?
  }

  lemma QueuedQuiet(s: State)
    requires OnlyQueued(s, TITLE_TOP)
    ensures AllQuiet(s)
  {
    assert forall t | t in s.threads :: t == 0 || t == 1 || t == 2 || t > 2;
  }

  /** Its save fails, the job is marked, the worker leaves: all is quiet, and the store behind. */
  lemma StoreIsBehind() returns (tr: Trace, s: State)
    ensures Reaches(tr, s) && AllQuiet(s)
    ensures Registered(s.core, 0) && !s.core.objs[0].deleting && s.core.objs[0].job.status.Failed?
    ensures s.core.objs[0].job.id in s.shelf.disk && s.shelf.disk[s.core.objs[0].job.id].job.status.Queued?
  {
    tr, s := FetchOnly();
    tr := RejectStep(tr, s);
    QueuedRejected(s);
    s := Rejected(s);
    tr := SaveSteps(tr, s, 1, s.core.objs[0].ver, Leave(Title), false);
    s := Kept(s, 1, Leave(Title), false);
    tr := MarkStep(tr, s);
    MarkedQueued(s);
    s := MarkedLost(s);
    tr := LetGoSteps(tr, s);
    s := LetGo(s);
    QueuedQuiet(s);
  }
}
