/**
  Close: once it has begun it can always complete, whoever holds which lock, and after its last
  section nothing runs any more.
 */
module Shutdown {
  import opened Model
  import opened JobCore
  import opened JobMachine
  import opened Ownership
  import opened Invariant
  import opened RemovalSteps
  import opened RegistrySteps
  import opened Queue
  import opened CalmSteps
  import opened Runs
  import opened Progress
  import opened Liveness

  // ---- after the last section ----

  /** The workers are gone and no shown job is left in the pipeline. */
  ghost predicate Stopped(s: State) {
    WorkersGone(s.threads) && forall o | 0 <= o < |s.core.objs| :: !Interrupted(s.core, o)
  }

  lemma CloseEndStops(s: State, t: Tid, ca: CallerStep, s': State)
    requires RolesOk(s.threads) && CallerNext(s, t, ca, s') && ca.CloseEnd?
    ensures Stopped(s')
  {
    assert RoleOk(t, s.threads[t]);
  }

  /** No step of a caller, a save or a removal puts a job into the pipeline. */
  lemma SettledStops(s: State, s': State)
    requires Stopped(s) && Settles(s.core, s'.core) && WorkersGone(s'.threads)
    ensures Stopped(s')
  {
    forall o | 0 <= o < |s'.core.objs| ensures !Interrupted(s'.core, o) {
      assert SettledAt(s.core, s'.core, o) && !Interrupted(s.core, o);
    }
  }

  lemma EnqueuedStops(s: State, o: Oid, s': State)
    requires Stopped(s) && Enqueue(s, o, s') && WorkersGone(s'.threads)
    ensures Stopped(s')
  {
    forall p | 0 <= p < |s'.core.objs| ensures !Interrupted(s'.core, p) {
      assert p != o ==> !Interrupted(s.core, p);
    }
  }

  lemma NoWorkerMoves(s: State, t: Tid, wk: WorkStep, s': State)
    requires RolesOk(s.threads) && WorkersGone(s.threads)
    ensures !WorkNext(s, t, wk, s')
  {
    assert t in s.threads ==> RoleOk(t, s.threads[t]);
  }

  lemma StaysGone(s: State, act: Action, s': State)
    requires RolesOk(s.threads) && WorkersGone(s.threads) && Step(s, act, s')
    ensures WorkersGone(s'.threads)
  {
    StepStays(s, act, s');
    if act.WorkAct? {
      NoWorkerMoves(s, act.t, act.wk, s');
    } else {
      assert act.t in s.threads ==> RoleOk(act.t, s.threads[act.t]);
    }
  }

  lemma CallerStopped(s: State, t: Tid, ca: CallerStep, s': State)
    requires OwnershipOk(s) && Stopped(s) && CallerNext(s, t, ca, s') && WorkersGone(s'.threads)
    ensures Stopped(s')
  {
    if Enqueued(s, t, ca).Some? {
      CallerQueue(s, t, ca, s');
      EnqueuedStops(s, Enqueued(s, t, ca).value, s');
    } else {
      if !ca.SubmitOnce? && !ca.RetryOnce? {
        CallerSettles(s, t, ca, s');
      }
      SettledStops(s, s');
    }
  }

  lemma StepStopped(s: State, act: Action, s': State)
    requires Inv(s) && Stopped(s) && Step(s, act, s')
    ensures Stopped(s')
  {
    StaysGone(s, act, s');
    match act
    case WorkAct(t, wk) => NoWorkerMoves(s, t, wk, s');
    case SaveAct(_, _) => SettledStops(s, s');
    case RemoveAct(t, rm) =>
      RemoveSettles(s, t, rm, s');
      SettledStops(s, s');
    case CallerAct(t, ca) => CallerStopped(s, t, ca, s');
    case Call(_, _) => SettledStops(s, s');
  }

  lemma RunStopped(ss: seq<State>, acts: seq<Action>, i: nat)
    requires Run(ss, acts) && i < |acts| && Stopped(ss[i])
    ensures Stopped(ss[i + 1])
  {
    InvariantAt(ss, acts, i);
    StepStopped(ss[i], acts[i], ss[i + 1]);
  }

  lemma {:induction false} StaysStopped(ss: seq<State>, acts: seq<Action>, i: nat, j: nat)
    requires Run(ss, acts) && i <= j < |ss| && Stopped(ss[i])
    ensures Stopped(ss[j])
    decreases j - i
  {
    if i == j {
    } else {
      RunStopped(ss, acts, i);
      StaysStopped(ss, acts, i + 1, j);
    }
  }

  /**
    After Close's last section, for the rest of the run: the workers stay gone, no shown job is
    in the pipeline, and no download is in flight.
   */
  lemma NothingRunsAfterClose(ss: seq<State>, acts: seq<Action>, i: nat, j: nat)
    requires Run(ss, acts) && i < j < |ss| && acts[i].CallerAct? && acts[i].ca.CloseEnd?
    ensures Stopped(ss[j]) && Flight(ss[j].threads).None?
  {
    InvariantAt(ss, acts, i);
    CloseEndStops(ss[i], acts[i].t, acts[i].ca, ss[i + 1]);
    StaysStopped(ss, acts, i + 1, j);
  }

  // ---- while closing no worker sleeps ----

  predicate Asleep(pc: Pc) {
    pc.Loop? && pc.l.Parked?
  }

  predicate NoneAsleep(th: map<Tid, Pc>) {
    forall t | 0 <= t <= 2 && t in th :: !Asleep(th[t])
  }

  ghost predicate Awake(s: State) {
    s.core.closing ==> NoneAsleep(s.threads)
  }

  lemma CloseWakesAll(s: State, t: Tid, s': State)
    requires CallerNext(s, t, CloseBegin, s') && !s.core.closing
    ensures NoneAsleep(s'.threads)
  {
  }

  lemma WorkClosing(s: State, t: Tid, wk: WorkStep, s': State)
    requires WorkNext(s, t, wk, s')
    ensures s'.core.closing == s.core.closing
  {
  }

  lemma RemoveClosing(s: State, t: Tid, rm: RemoveStep, s': State)
    requires RemoveNext(s, t, rm, s')
    ensures s'.core.closing == s.core.closing
  {
  }

  lemma CallerClosing(s: State, t: Tid, ca: CallerStep, s': State)
    requires CallerNext(s, t, ca, s')
    ensures s'.core.closing == (s.core.closing || ca.CloseBegin?)
  {
  }

  lemma StepClosing(s: State, act: Action, s': State)
    requires Step(s, act, s')
    ensures s'.core.closing == (s.core.closing || (act.CallerAct? && act.ca.CloseBegin?))
  {
    match act
    case WorkAct(t, wk) => WorkClosing(s, t, wk, s');
    case SaveAct(_, _) =>
    case RemoveAct(t, rm) => RemoveClosing(s, t, rm, s');
    case CallerAct(t, ca) => CallerClosing(s, t, ca, s');
    case Call(_, _) =>
  }

  /** Only a worker's own pick sends it to sleep, and not while closing. */
  lemma MoverAwake(s: State, act: Action, s': State)
    requires Step(s, act, s') && s.core.closing && act.t in s.threads && act.t in s'.threads
    ensures Asleep(s'.threads[act.t]) ==> Asleep(s.threads[act.t])
  {
    match act
    case WorkAct(t, wk) => WorkerAwake(s, t, wk, s');
    case SaveAct(_, _) =>
    case RemoveAct(t, rm) => RemoverAwake(s, t, rm, s');
    case CallerAct(t, ca) => CallerAwake(s, t, ca, s');
    case Call(_, _) =>
  }

  lemma WorkerAwake(s: State, t: Tid, wk: WorkStep, s': State)
    requires WorkNext(s, t, wk, s') && s.core.closing && t in s'.threads
    ensures Asleep(s'.threads[t]) ==> Asleep(s.threads[t])
  {
  }

  lemma RemoverAwake(s: State, t: Tid, rm: RemoveStep, s': State)
    requires RemoveNext(s, t, rm, s') && t in s'.threads
    ensures Asleep(s'.threads[t]) ==> Asleep(s.threads[t])
  {
  }

  lemma CallerAwake(s: State, t: Tid, ca: CallerStep, s': State)
    requires CallerNext(s, t, ca, s') && t in s'.threads
    ensures Asleep(s'.threads[t]) ==> Asleep(s.threads[t])
  {
  }

  lemma NobodyElseSleeps(th: map<Tid, Pc>, t: Tid, th': map<Tid, Pc>)
    requires 0 in th && 1 in th && 2 in th && NoneAsleep(th) && KnownStay(th, t, th')
    requires t in th && t in th' && Asleep(th'[t]) ==> Asleep(th[t])
    ensures NoneAsleep(th')
  {
  }

  lemma StepAwake(s: State, act: Action, s': State)
    requires OwnershipOk(s) && Awake(s) && Step(s, act, s')
    ensures Awake(s')
  {
    StepClosing(s, act, s');
    if s.core.closing {
      StepStays(s, act, s');
      if act.t in s.threads && act.t in s'.threads {
        MoverAwake(s, act, s');
      }
      NobodyElseSleeps(s.threads, act.t, s'.threads);
    } else if s'.core.closing {
      CloseWakesAll(s, act.t, s');
    }
  }

  lemma RunAwakeMoves(ss: seq<State>, acts: seq<Action>, i: nat)
    requires Run(ss, acts) && i < |acts| && Awake(ss[i])
    ensures Awake(ss[i + 1])
  {
    InvariantAt(ss, acts, i);
    StepAwake(ss[i], acts[i], ss[i + 1]);
  }

  lemma {:induction false} RunAwake(ss: seq<State>, acts: seq<Action>, i: nat)
    requires Run(ss, acts) && i < |ss|
    ensures Awake(ss[i])
  {
    if i == 0 {
    } else {
      RunAwake(ss, acts, i - 1);
      RunAwakeMoves(ss, acts, i - 1);
    }
  }

  // ---- a thread's own steps ----

  /** Steps a worker that is closing down, or a save, still has to take at most. */
  function Left(pc: Pc): nat {
    match pc
    case Loop(_, l) => if l.Exited? then 0 else if l.Waking? then 2 else 1
    case Owns(_, _, _) => WorkLeft(pc) + 6
    case Storing(_, _, at, k) => (
      match k
      case CloseSaves(rest) => 2 * |rest| + if at.Waiting? then 2 else 1
      case Detached => if at.Waiting? then 2 else 1
      case _ => WorkLeft(pc) + 6)
    case Remover(_, r, _) => RemoveLeft(r) + 1
    case Closer(_, _, _, _) => 2
    case _ => 0
  }

  /** Thread t waits for a saveMu that is taken. */
  predicate Waits(s: State, t: Tid) {
    && t in s.threads
    && var pc := s.threads[t];
    && ((pc.Storing? && pc.at.Waiting?) || (pc.Remover? && pc.r.Checking?)) && pc.o in s.guard.lock
  }

  /** The step is thread t's and brings it closer to its end. */
  predicate Forward(s: State, t: Tid, act: Action, s': State) {
    && act.t == t && Step(s, act, s') && t in s.threads && t in s'.threads
    && Left(s'.threads[t]) < Left(s.threads[t]) && (InClose(s.threads[t]) ==> InClose(s'.threads[t]))
  }

  /** Between Close's last section and its return. */
  predicate InClose(pc: Pc) {
    (pc.Storing? && pc.k.CloseSaves?) || pc == Returned(ClosedNow)
  }

  lemma LoopForward(s: State, t: Tid) returns (act: Action, s': State)
    requires t in s.threads && s.threads[t].Loop? && Left(s.threads[t]) > 0 && !Asleep(s.threads[t])
    requires s.core.closing
    ensures Forward(s, t, act, s')
  {
    var pc := s.threads[t];
    if pc.l.Top? {
      act := WorkAct(t, Pick(None));
      s' := s.(threads := s.threads[t := Loop(pc.kind, Exited)]);
    } else {
      act := WorkAct(t, Broadcast);
      s' := s.(threads := WakeAll(s.threads)[t := Loop(pc.kind, Top)]);
    }
  }

  lemma OwnsForward(s: State, t: Tid) returns (act: Action, s': State)
    requires Inv(s) && t in s.threads && s.threads[t].Owns?
    ensures Forward(s, t, act, s')
  {
    assert RoleOk(t, s.threads[t]);
    assert Own(s.threads[t]) == Some(s.threads[t].o);
    if s.threads[t].w.Leaving? {
      act, s' := OwnerReleases(s, t);
      ReleaseNearer(s, t, s');
    } else {
      act, s' := OwnerMoves(s, t);
      OwnedLeft(s'.threads[t]);
    }
  }

  lemma ReleaseNearer(s: State, t: Tid, s': State)
    requires WorkNext(s, t, Release, s') && s.threads[t].Owns?
    ensures t in s'.threads && Left(s'.threads[t]) < Left(s.threads[t])
  {
  }

  lemma OwnedLeft(pc: Pc)
    requires Own(pc).Some?
    ensures Left(pc) == WorkLeft(pc) + 6 && !InClose(pc)
  {
  }

  lemma StoreForward(s: State, t: Tid) returns (act: Action, s': State)
    requires t in s.threads && s.threads[t].Storing? && s.threads[t].o < |s.core.objs| && !Waits(s, t)
    ensures Forward(s, t, act, s')
  {
    var pc := s.threads[t];
    if pc.at.Writing? {
      act, s' := WriterEnds(s, t);
    } else {
      act := SaveAct(t, SaveBegin);
      var j := Snapshot(s.core, pc.o);
      if j.None? {
        s' := s.(threads := s.threads[t := AfterSave(pc.o, pc.k, true)]);
      } else {
        s' := s.(threads := s.threads[t := pc.(at := Writing(j.value, s.core.objs[pc.o].ver))],
                 guard := s.guard.(lock := s.guard.lock[pc.o := t]));
      }
    }
  }

  lemma RemoverForward(s: State, t: Tid) returns (act: Action, s': State)
    requires Inv(s) && t in s.threads && s.threads[t].Remover? && !Waits(s, t)
    ensures Forward(s, t, act, s')
  {
    CheckFinds(s, t);
    act, s' := RemoverMoves(s, t);
    RemoverNearer(s, t, act.rm, s');
  }

  lemma RemoverNearer(s: State, t: Tid, rm: RemoveStep, s': State)
    requires RemoveNext(s, t, rm, s') && s.threads[t].Remover?
    requires Finalizable(s.core, s.threads[t].o) && s.core.objs[s.threads[t].o].removal.Some?
    ensures t in s'.threads && Left(s'.threads[t]) < Left(s.threads[t])
  {
  }

  lemma CloserForward(s: State, t: Tid) returns (act: Action, s': State)
    requires Inv(s) && t in s.threads && s.threads[t].Closer?
    ensures Forward(s, t, act, s')
  {
    assert PcOk(s, s.threads[t]);
    act, s' := CloserEnds(s, t);
    CloserNearer(s, t, s');
  }

  lemma CloserNearer(s: State, t: Tid, s': State)
    requires RemoveNext(s, t, CloseDone, s') && s.threads[t].Closer?
    ensures t in s'.threads && Left(s'.threads[t]) < Left(s.threads[t])
  {
  }

  /** A thread that is not done and does not wait for a lock can go forward, whatever the others do. */
  lemma CanGoForward(s: State, t: Tid) returns (act: Action, s': State)
    requires Inv(s) && s.core.closing && NoneAsleep(s.threads)
    requires t in s.threads && Left(s.threads[t]) > 0 && !Waits(s, t)
    ensures Forward(s, t, act, s')
  {
    var pc := s.threads[t];
    assert RoleOk(t, pc) && PcOk(s, pc);
    if pc.Loop? {
      act, s' := LoopForward(s, t);
    } else if pc.Owns? {
      act, s' := OwnsForward(s, t);
    } else if pc.Storing? {
      act, s' := StoreForward(s, t);
    } else if pc.Remover? {
      act, s' := RemoverForward(s, t);
    } else {
      act, s' := CloserForward(s, t);
    }
  }

  // ---- one thread to its end ----

  ghost predicate Ready(s: State) {
    Inv(s) && s.core.closing && NoneAsleep(s.threads)
  }

  /** Nobody falls back, and who was done is left alone. */
  ghost predicate Steady(s: State, s': State) {
    forall w | w in s.threads ::
      w in s'.threads && Left(s'.threads[w]) <= Left(s.threads[w]) &&
      (Left(s.threads[w]) == 0 ==> s'.threads[w] == s.threads[w])
  }

  lemma ForwardSteady(s: State, t: Tid, act: Action, s': State)
    requires Forward(s, t, act, s')
    ensures Steady(s, s')
  {
    StepStays(s, act, s');
    forall w | w in s.threads
      ensures w in s'.threads && Left(s'.threads[w]) <= Left(s.threads[w])
      ensures Left(s.threads[w]) == 0 ==> s'.threads[w] == s.threads[w]
    {
      assert w != t ==> s'.threads[w] == s.threads[w] || s'.threads[w] == Woken(s.threads[w]);
    }
  }

  lemma ForwardReady(s: State, t: Tid, act: Action, s': State)
    requires Ready(s) && Forward(s, t, act, s')
    ensures Ready(s')
  {
    StepKeeps(s, act, s');
    StepAwake(s, act, s');
    StepClosing(s, act, s');
  }

  /** How long thread t still waits for the lock it needs. */
  function WaitLeft(s: State, t: Tid): nat {
    if Waits(s, t) && s.guard.lock[s.threads[t].o] in s.threads
    then 1 + Left(s.threads[s.guard.lock[s.threads[t].o]]) else 0
  }

  /** A holder keeps its lock to itself until it lets go. */
  lemma HolderSteps(s: State, u: Tid, act: Action, s': State, o: Oid)
    requires Step(s, act, s') && act.t == u && u in s.threads && Holds(s.threads[u]) == Some(o)
    requires o in s.guard.lock && s.guard.lock[o] == u
    ensures o in s'.guard.lock ==> s'.guard.lock[o] == u
  {
  }

  /** The holder of the lock t waits for goes forward. */
  lemma HolderForward(s: State, t: Tid) returns (act: Action, s': State)
    requires Ready(s) && Waits(s, t)
    ensures var u := s.guard.lock[s.threads[t].o]; Forward(s, u, act, s') && u != t
    ensures t in s'.threads && s'.threads[t] == s.threads[t] && WaitLeft(s', t) < WaitLeft(s, t)
  {
    var u := s.guard.lock[s.threads[t].o];
    HolderIsOther(s, t);
    act, s' := CanGoForward(s, u);
    StepStays(s, act, s');
    HolderSteps(s, u, act, s', s.threads[t].o);
    WaitFalls(s, t, u, s');
  }

  lemma HolderIsOther(s: State, t: Tid)
    requires LocksOk(s.threads, s.guard.lock) && Waits(s, t)
    ensures var u := s.guard.lock[s.threads[t].o];
      u != t && u in s.threads && Holds(s.threads[u]) == Some(s.threads[t].o) && !Waits(s, u) && Left(s.threads[u]) > 0
  {
  }

  lemma WaitFalls(s: State, t: Tid, u: Tid, s': State)
    requires Waits(s, t) && u == s.guard.lock[s.threads[t].o] && u in s.threads && u in s'.threads && t in s'.threads
    requires s'.threads[t] == s.threads[t] && Left(s'.threads[u]) < Left(s.threads[u])
    requires s.threads[t].o in s'.guard.lock ==> s'.guard.lock[s.threads[t].o] == u
    ensures WaitLeft(s', t) < WaitLeft(s, t)
  {
  }

  /** Thread t, or the holder of the lock it waits for, goes forward. */
  predicate Nearer(s: State, t: Tid, s': State) {
    && t in s.threads && t in s'.threads && (InClose(s.threads[t]) ==> InClose(s'.threads[t]))
    && (|| Left(s'.threads[t]) < Left(s.threads[t])
        || (Left(s'.threads[t]) == Left(s.threads[t]) && WaitLeft(s', t) < WaitLeft(s, t)))
  }

  lemma NextStep(s: State, t: Tid) returns (act: Action, s': State)
    requires Ready(s) && t in s.threads && Left(s.threads[t]) > 0
    ensures Step(s, act, s') && Ready(s') && Steady(s, s') && Nearer(s, t, s')
  {
    if Waits(s, t) {
      act, s' := HolderForward(s, t);
      ForwardReady(s, act.t, act, s');
      ForwardSteady(s, act.t, act, s');
    } else {
      act, s' := CanGoForward(s, t);
      ForwardReady(s, t, act, s');
      ForwardSteady(s, t, act, s');
    }
  }

  ghost predicate Reaches(s: State, ss: seq<State>, acts: seq<Action>, s': State) {
    Path(ss, acts) && ss[0] == s && ss[|acts|] == s'
  }

  /** From every reachable state, whoever holds which lock, a thread can be run to its end. */
  lemma {:induction false} ThreadFinishes(s: State, t: Tid) returns (ss: seq<State>, acts: seq<Action>, s': State)
    requires Ready(s) && t in s.threads
    ensures Reaches(s, ss, acts, s') && Ready(s') && Steady(s, s')
    ensures t in s'.threads && Left(s'.threads[t]) == 0 && (InClose(s.threads[t]) ==> InClose(s'.threads[t]))
    decreases Left(s.threads[t]), WaitLeft(s, t)
  {
    if Left(s.threads[t]) == 0 {
      ss, acts, s' := [s], [], s;
    } else {
      var act, next := NextStep(s, t);
      ss, acts, s' := ThreadFinishes(next, t);
      PrependStep(s, act, ss, acts);
      SteadyThrough(s, next, s');
      ss, acts := [s] + ss, [act] + acts;
    }
  }

  lemma SteadyThrough(s: State, next: State, s': State)
    requires Steady(s, next) && Steady(next, s')
    ensures Steady(s, s')
  {
  }

  lemma Join(s: State, ss: seq<State>, acts: seq<Action>, m: State, ts: seq<State>, bs: seq<Action>,
      s': State)
    requires Reaches(s, ss, acts, m) && Reaches(m, ts, bs, s')
    ensures Reaches(s, ss + ts[1..], acts + bs, s')
  {
    var us, cs := ss + ts[1..], acts + bs;
    forall i | 0 <= i < |cs| ensures Moves(us, cs, i) {
      if i < |acts| {
        assert Moves(ss, acts, i);
      } else {
        assert Moves(ts, bs, i - |acts|);
        assert us[i] == ts[i - |acts|] && us[i + 1] == ts[i + 1 - |acts|];
      }
    }
  }

  // ---- Close completes ----

  lemma WorkerIsGone(s: State, t: Tid)
    requires RolesOk(s.threads) && t <= 2 && t in s.threads && Left(s.threads[t]) == 0
    ensures s.threads[t] == Loop(KindOf(t), Exited)
  {
    assert RoleOk(t, s.threads[t]);
  }

  /** The workers can be run to their exit, one after the other. */
  lemma WorkersCanLeave(s: State) returns (ss: seq<State>, acts: seq<Action>, s': State)
    requires Ready(s)
    ensures Reaches(s, ss, acts, s') && Ready(s') && Steady(s, s') && WorkersGone(s'.threads)
  {
    var ss0, acts0, s0 := ThreadFinishes(s, 0);
    var ss1, acts1, s1 := ThreadFinishes(s0, 1);
    Join(s, ss0, acts0, s0, ss1, acts1, s1);
    SteadyThrough(s, s0, s1);
    var ss2, acts2, s2 := ThreadFinishes(s1, 2);
    Join(s, ss0 + ss1[1..], acts0 + acts1, s1, ss2, acts2, s2);
    SteadyThrough(s, s1, s2);
    WorkerIsGone(s2, 0);
    WorkerIsGone(s2, 1);
    WorkerIsGone(s2, 2);
    ss, acts, s' := ss0 + ss1[1..] + ss2[1..], acts0 + acts1 + acts2, s2;
  }

  lemma ListOf(jobs: set<Oid>) returns (order: seq<Oid>)
    ensures (set o | o in order) == jobs
  {
    order := [];
    var left := jobs;
    while left != {}
      invariant left <= jobs && forall o :: o in order <==> o in jobs && o !in left
    {
      var o :| o in left;
      order, left := order + [o], left - {o};
    }
  }

  lemma CloseEnds(s: State, t: Tid) returns (act: Action, s': State)
    requires Ready(s) && t in s.threads && s.threads[t] == Client(CloseWaiting) && WorkersGone(s.threads)
    ensures Step(s, act, s') && Ready(s') && t in s'.threads && InClose(s'.threads[t])
  {
    var order := ListOf(InterruptedJobs(s.core));
    act := CallerAct(t, CloseEnd(order));
    s' := s.(core := Interrupt(s.core), threads := s.threads[t := CloseNext(Versions(Interrupt(s.core), order))]);
    StepKeeps(s, act, s');
    StepAwake(s, act, s');
  }

  /** With the workers gone: Close's last section, then its saves. */
  lemma LastLeg(s: State, t: Tid) returns (ss: seq<State>, acts: seq<Action>, s': State)
    requires Ready(s) && t in s.threads && s.threads[t] == Client(CloseWaiting) && WorkersGone(s.threads)
    ensures Reaches(s, ss, acts, s') && t in s'.threads && s'.threads[t] == Returned(ClosedNow)
  {
    var act, next := CloseEnds(s, t);
    ss, acts, s' := ThreadFinishes(next, t);
    PrependStep(s, act, ss, acts);
    ss, acts := [s] + ss, [act] + acts;
  }

  /** Once Close has begun there is, from every reachable state, a way for it to return. */
  lemma CloseCanComplete(s: State, t: Tid) returns (ss: seq<State>, acts: seq<Action>, s': State)
    requires Ready(s) && t in s.threads && (s.threads[t] == Client(CloseWaiting) || InClose(s.threads[t]))
    ensures Reaches(s, ss, acts, s') && t in s'.threads && s'.threads[t] == Returned(ClosedNow)
  {
    if InClose(s.threads[t]) {
      ss, acts, s' := ThreadFinishes(s, t);
    } else {
      var ss0, acts0, s0 := WorkersCanLeave(s);
      var ss1, acts1, s1 := LastLeg(s0, t);
      Join(s, ss0, acts0, s0, ss1, acts1, s1);
      ss, acts, s' := ss0 + ss1[1..], acts0 + acts1, s1;
    }
  }

  // ---- over runs ----

  /** A thread past Close's first section. */
  predicate IsCloser(pc: Pc) {
    pc == Client(CloseWaiting) || (pc.Storing? && pc.k.CloseSaves?)
  }

  ghost predicate ClosersOk(s: State) {
    !s.core.closing ==> forall t | t in s.threads :: !IsCloser(s.threads[t])
  }

  lemma WorkCloser(s: State, t: Tid, wk: WorkStep, s': State, u: Tid)
    requires WorkNext(s, t, wk, s') && u in s'.threads && IsCloser(s'.threads[u])
    ensures u in s.threads && IsCloser(s.threads[u])
  {
  }

  lemma SaveCloser(s: State, t: Tid, sv: SaveStep, s': State, u: Tid)
    requires SaveNext(s, t, sv, s') && u in s'.threads && IsCloser(s'.threads[u])
    ensures u in s.threads && IsCloser(s.threads[u])
  {
  }

  lemma RemoveCloser(s: State, t: Tid, rm: RemoveStep, s': State, u: Tid)
    requires RemoveNext(s, t, rm, s') && u in s'.threads && IsCloser(s'.threads[u])
    ensures u in s.threads && IsCloser(s.threads[u])
  {
  }

  lemma CallerCloser(s: State, t: Tid, ca: CallerStep, s': State, u: Tid)
    requires CallerNext(s, t, ca, s') && !ca.CloseBegin? && u in s'.threads && IsCloser(s'.threads[u])
    ensures u in s.threads && (IsCloser(s.threads[u]) || (ca.CloseEnd? && t in s.threads && IsCloser(s.threads[t])))
  {
    if ca.SubmitOnce? {
      SubmitCloser(s, t, ca, s', u);
    } else if ca.RetryOnce? {
      RetryCloser(s, t, ca, s', u);
    }
  }

  lemma SubmitCloser(s: State, t: Tid, ca: CallerStep, s': State, u: Tid)
    requires CallerNext(s, t, ca, s') && ca.SubmitOnce? && u in s'.threads && IsCloser(s'.threads[u])
    ensures u in s.threads && IsCloser(s.threads[u])
  {
  }

  lemma RetryCloser(s: State, t: Tid, ca: CallerStep, s': State, u: Tid)
    requires CallerNext(s, t, ca, s') && ca.RetryOnce? && u in s'.threads && IsCloser(s'.threads[u])
    ensures u in s.threads && IsCloser(s.threads[u])
  {
  }

  lemma StepClosers(s: State, act: Action, s': State)
    requires ClosersOk(s) && Step(s, act, s')
    ensures ClosersOk(s')
  {
    StepClosing(s, act, s');
    if !s'.core.closing {
      forall u | u in s'.threads ensures !IsCloser(s'.threads[u]) {
        if IsCloser(s'.threads[u]) {
          match act
          case WorkAct(t, wk) => WorkCloser(s, t, wk, s', u);
          case SaveAct(t, sv) => SaveCloser(s, t, sv, s', u);
          case RemoveAct(t, rm) => RemoveCloser(s, t, rm, s', u);
          case CallerAct(t, ca) => CallerCloser(s, t, ca, s', u);
          case Call(_, _) =>
        }
      }
    }
  }

  lemma RunClosersMoves(ss: seq<State>, acts: seq<Action>, i: nat)
    requires Run(ss, acts) && i < |acts| && ClosersOk(ss[i])
    ensures ClosersOk(ss[i + 1])
  {
    InvariantAt(ss, acts, i);
    StepClosers(ss[i], acts[i], ss[i + 1]);
  }

  lemma {:induction false} RunClosers(ss: seq<State>, acts: seq<Action>, i: nat)
    requires Run(ss, acts) && i < |ss|
    ensures ClosersOk(ss[i])
  {
    if i == 0 {
    } else {
      RunClosers(ss, acts, i - 1);
      RunClosersMoves(ss, acts, i - 1);
    }
  }

  /**
    Whenever in a run a Close has begun and not returned, there is a way for it to return:
    whoever owns a job, removes one or holds a lock can be brought to let go.
   */
  lemma CloseCanReturn(ss: seq<State>, acts: seq<Action>, i: nat, t: Tid)
    returns (more: seq<State>, steps: seq<Action>, s': State)
    requires Run(ss, acts) && i < |ss| && t in ss[i].threads && IsCloser(ss[i].threads[t])
    ensures Reaches(ss[i], more, steps, s') && t in s'.threads && s'.threads[t] == Returned(ClosedNow)
  {
    RunInv(ss, acts, i);
    RunClosers(ss, acts, i);
    RunAwake(ss, acts, i);
    more, steps, s' := CloseCanComplete(ss[i], t);
  }
}
