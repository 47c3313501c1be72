/** Whole runs of the manager, from a recovered registry, and what holds throughout. */
module Runs {
  import opened Model
  import opened JobCore
  import opened JobMachine
  import opened Ownership
  import opened Invariant
  import opened RegistrySteps
  import opened Queue
  import opened CalmSteps

  const WORKERS: map<Tid, Pc> := map[0 := Loop(Down, Top), 1 := Loop(Title, Top), 2 := Loop(Title, Top)]

  predicate Untried(r: JobRec) {
    && !r.active && !r.fetching && !r.deleting && r.removal.None? && !r.cancelled
    && !InPipeline(r.job.status)
  }

  /** A record one change behind its job differs from it. */
  predicate RecordApart(s: State, o: Oid) {
    o < |s.core.objs| &&
    var r := s.core.objs[o];
    r.job.id in s.shelf.disk && s.shelf.disk[r.job.id].owner == o && s.shelf.disk[r.job.id].ver + 1 == r.ver ==>
      s.shelf.disk[r.job.id].job != r.job
  }

  /** The manager right after Recover: idle workers, and records of registered jobs only. */
  ghost predicate Init(s: State) {
    && RegOk(s.core) && OrdersOk(s.core) && !s.core.closing
    && (forall o | 0 <= o < |s.core.objs| :: Registered(s.core, o) && Untried(s.core.objs[o]))
    && s.threads == WORKERS
    && s.guard == Guard(map[], map[], [], false)
    && s.shelf.gone == {} && s.shelf.leftover == {}
    && (forall id | id in s.shelf.disk :: RecordOk(s, id))
    && (forall o | 0 <= o < |s.core.objs| :: RecordApart(s, o))
  }

  lemma InitInv(s: State)
    requires Init(s)
    ensures Inv(s) && QueueInv(s)
  {
    forall o | 0 <= o < |s.core.objs| ensures RemovalOk(s.core, s.guard.fin, o) && CurrentOk(s, o) {
      assert Registered(s.core, o) && Untried(s.core.objs[o]);
    }
  }

  lemma StepQueue(s: State, a: Action, s': State)
    requires Inv(s) && Step(s, a, s')
    ensures Calm(s, s') || exists o :: Enqueue(s, o, s')
  {
    match a
    case WorkAct(t, wk) => WorkCalm(s, t, wk, s');
    case SaveAct(t, sv) => SaveCalm(s, t, sv, s');
    case RemoveAct(t, rm) => RemoveCalm(s, t, rm, s');
    case CallerAct(t, ca) => CallerQueue(s, t, ca, s');
    case Call(t, q) =>
      assert Settles(s.core, s'.core);
      SettleCalm(s, s');
  }

  lemma StepQueueInv(s: State, a: Action, s': State)
    requires Inv(s) && QueueInv(s) && Step(s, a, s')
    ensures QueueInv(s')
  {
    StepQueue(s, a, s');
    if Calm(s, s') {
      CalmOrders(s, s');
      CalmCards(s, s');
      CalmWakeup(s, s');
    } else {
      var o :| Enqueue(s, o, s');
      EnqueueOrders(s, o, s');
      EnqueueCards(s, o, s');
    }
  }

  lemma FlightIsRegistered(s: State)
    requires OwnershipOk(s)
    ensures FlightRegistered(s)
  {
    assert Own(s.threads[0]).Some? ==> Registered(s.core, Own(s.threads[0]).value);
  }

  lemma StepAdmission(s: State, a: Action, s': State)
    requires Inv(s) && AdmissionOk(s) && Step(s, a, s')
    ensures AdmissionOk(s')
  {
    StepKeeps(s, a, s');
    StepQueue(s, a, s');
    FlightIsRegistered(s);
    if Calm(s, s') {
      CalmAdmission(s, s');
    } else {
      var o :| Enqueue(s, o, s');
      EnqueueAdmission(s, o, s');
    }
  }

  // ---- runs ----

  /** The i-th action leads from the i-th state to the next. */
  predicate Moves(ss: seq<State>, acts: seq<Action>, i: nat)
    requires i < |acts| && i + 1 < |ss|
  {
    Step(ss[i], acts[i], ss[i + 1])
  }

  /** A sequence of steps, without a requirement on how its first state was reached. */
  ghost predicate Path(ss: seq<State>, acts: seq<Action>) {
    |ss| == |acts| + 1 && forall i | 0 <= i < |acts| :: Moves(ss, acts, i)
  }

  ghost predicate Run(ss: seq<State>, acts: seq<Action>) {
    Path(ss, acts) && Init(ss[0])
  }

  /** What holds at k holds one step later. */
  predicate Carries(ok: seq<bool>, k: nat)
    requires k + 1 < |ok|
  {
    ok[k] ==> ok[k + 1]
  }

  lemma Chain(ok: seq<bool>, from: nat, to: nat)
    requires from <= to < |ok| && ok[from] && forall k | from <= k < to :: Carries(ok, k)
    ensures ok[to]
  {
    for i := from to to
      invariant ok[i]
    {
      assert Carries(ok, i);
    }
  }

  ghost function InvFlags(ss: seq<State>): (ok: seq<bool>)
    ensures |ok| == |ss| && forall k | 0 <= k < |ss| :: ok[k] == (Inv(ss[k]) && QueueInv(ss[k]))
  {
    seq(|ss|, k requires 0 <= k < |ss| => Inv(ss[k]) && QueueInv(ss[k]))
  }

  lemma RunInv(ss: seq<State>, acts: seq<Action>, i: nat)
    requires Run(ss, acts) && i < |ss|
    ensures Inv(ss[i]) && QueueInv(ss[i])
  {
    InitInv(ss[0]);
    PathInv(ss, acts, i);
  }

  lemma PathInv(ss: seq<State>, acts: seq<Action>, i: nat)
    requires Path(ss, acts) && Inv(ss[0]) && QueueInv(ss[0]) && i < |ss|
    ensures Inv(ss[i]) && QueueInv(ss[i])
  {
    var ok := InvFlags(ss);
    forall k | 0 <= k < i ensures Carries(ok, k) {
      PathInvMoves(ss, acts, k);
    }
    Chain(ok, 0, i);
  }

  lemma PathInvMoves(ss: seq<State>, acts: seq<Action>, i: nat)
    requires Path(ss, acts) && i < |acts|
    ensures Carries(InvFlags(ss), i)
  {
    assert Moves(ss, acts, i);
    if Inv(ss[i]) && QueueInv(ss[i]) {
      MoveInv(ss, acts, i);
    }
  }

  lemma MoveInv(ss: seq<State>, acts: seq<Action>, i: nat)
    requires i < |acts| && i + 1 < |ss| && Moves(ss, acts, i) && Inv(ss[i]) && QueueInv(ss[i])
    ensures Inv(ss[i + 1]) && QueueInv(ss[i + 1])
  {
    StepKeeps(ss[i], acts[i], ss[i + 1]);
    StepQueueInv(ss[i], acts[i], ss[i + 1]);
  }

  /** While the manager runs, no removal attempt is nil and none is closed twice. */
  lemma NeverCrashes(ss: seq<State>, acts: seq<Action>, i: nat)
    requires Run(ss, acts) && i < |ss|
    ensures !ss[i].guard.crashed
  {
    RunInv(ss, acts, i);
  }

  // ---- admission ----

  lemma InitAdmission(s: State)
    requires Init(s) && |UnfinishedIds(s.core)| <= MAX_UNFINISHED
    ensures AdmissionOk(s)
  {
    assert UnfinishedIds(s.core) - Slot(s) == UnfinishedIds(s.core);
  }

  lemma InvariantAt(ss: seq<State>, acts: seq<Action>, i: nat)
    requires Run(ss, acts) && i < |acts|
    ensures Inv(ss[i]) && Moves(ss, acts, i)
  {
    RunInv(ss, acts, i);
  }

  lemma RunAdmissionStep(ss: seq<State>, acts: seq<Action>, i: nat)
    requires Run(ss, acts) && i < |acts|
    ensures Carries(AdmissionFlags(ss), i)
  {
    InvariantAt(ss, acts, i);
    if AdmissionOk(ss[i]) {
      MoveAdmission(ss, acts, i);
    }
  }

  lemma MoveAdmission(ss: seq<State>, acts: seq<Action>, i: nat)
    requires i < |acts| && i + 1 < |ss| && Moves(ss, acts, i) && Inv(ss[i]) && AdmissionOk(ss[i])
    ensures AdmissionOk(ss[i + 1])
  {
    StepAdmission(ss[i], acts[i], ss[i + 1]);
  }

  ghost function AdmissionFlags(ss: seq<State>): (ok: seq<bool>)
    ensures |ok| == |ss| && forall k | 0 <= k < |ss| :: ok[k] == AdmissionOk(ss[k])
  {
    seq(|ss|, k requires 0 <= k < |ss| => AdmissionOk(ss[k]))
  }

  lemma RunAdmission(ss: seq<State>, acts: seq<Action>, n: nat)
    requires Run(ss, acts) && n < |ss| && AdmissionOk(ss[0])
    ensures AdmissionOk(ss[n])
  {
    var ok := AdmissionFlags(ss);
    forall k | 0 <= k < n ensures Carries(ok, k) {
      RunAdmissionStep(ss, acts, k);
    }
    Chain(ok, 0, n);
  }

  /**
    From a registry with at most 16 unfinished jobs: never more than 17, and while the manager
    is not closing never more than 16 besides the one download in flight.
   */
  lemma AdmissionBoundOnRuns(ss: seq<State>, acts: seq<Action>, i: nat)
    requires Run(ss, acts) && i < |ss| && |UnfinishedIds(ss[0].core)| <= 16
    ensures |UnfinishedIds(ss[i].core)| <= 17
    ensures !ss[i].core.closing ==> |UnfinishedIds(ss[i].core) - Slot(ss[i])| <= 16
  {
    InitAdmission(ss[0]);
    RunAdmission(ss, acts, i);
    AdmissionBound(ss[i]);
  }

  // ---- shutdown ----

  lemma MoveClosed(ss: seq<State>, acts: seq<Action>, i: nat)
    requires i < |acts| && i + 1 < |ss| && Moves(ss, acts, i) && Inv(ss[i]) && ss[i].core.closing
    ensures ss[i + 1].core.closing && |ss[i + 1].core.objs| == |ss[i].core.objs|
    ensures forall o :: InQueue(ss[i + 1].core, o) ==> InQueue(ss[i].core, o)
  {
    StepQueue(ss[i], acts[i], ss[i + 1]);
    forall o | InQueue(ss[i + 1].core, o) ensures InQueue(ss[i].core, o) {
      assert CalmAt(ss[i], ss[i + 1], o);
    }
  }

  /** After Close has begun no job is ever added and none goes back into the queue. */
  lemma {:induction false} ClosedForGood(ss: seq<State>, acts: seq<Action>, i: nat, j: nat)
    requires Run(ss, acts) && i <= j < |ss| && ss[i].core.closing
    ensures ss[j].core.closing && |ss[j].core.objs| == |ss[i].core.objs|
    ensures forall o :: InQueue(ss[j].core, o) ==> InQueue(ss[i].core, o)
  {
    if i == j {
    } else {
      ClosedForGood(ss, acts, i, j - 1);
      RunClosed(ss, acts, j - 1);
    }
  }

  lemma RunClosed(ss: seq<State>, acts: seq<Action>, i: nat)
    requires Run(ss, acts) && i < |acts| && ss[i].core.closing
    ensures ss[i + 1].core.closing && |ss[i + 1].core.objs| == |ss[i].core.objs|
    ensures forall o :: InQueue(ss[i + 1].core, o) ==> InQueue(ss[i].core, o)
  {
    InvariantAt(ss, acts, i);
    MoveClosed(ss, acts, i);
  }

  // ---- cards ----

  /** Every queued card can still start; every running card is run by the download worker. */
  lemma NoZombieCards(ss: seq<State>, acts: seq<Action>, i: nat, o: Oid)
    requires Run(ss, acts) && i < |ss| && !ss[i].core.closing && Shown(ss[i].core, o)
    ensures ss[i].core.objs[o].job.status.Queued? ==> !CtxDone(ss[i].core, o)
    ensures InPipeline(ss[i].core.objs[o].job.status) ==> Flight(ss[i].threads) == Some(o) && ss[i].core.objs[o].active
  {
    RunInv(ss, acts, i);
    assert InQueue(ss[i].core, o) ==> !ss[i].core.objs[o].cancelled;
  }

  /** A parked download worker has nothing to pick: no wakeup was lost. */
  lemma ParkedWorkerHasNoWork(ss: seq<State>, acts: seq<Action>, i: nat, o: Oid)
    requires Run(ss, acts) && i < |ss| && IsParked(ss[i].threads)
    ensures !Pickable(ss[i].core, o)
  {
    RunInv(ss, acts, i);
  }

  // ---- the store ----

  /** Stored records are those of registered jobs, except what a failed Submit left behind. */
  lemma NoResurrection(ss: seq<State>, acts: seq<Action>, i: nat)
    requires Run(ss, acts) && i < |ss|
    ensures ss[i].shelf.disk.Keys - ss[i].core.reg.Keys == ss[i].shelf.leftover
    ensures forall id | id in ss[i].shelf.disk && id in ss[i].core.reg ::
              ss[i].shelf.disk[id].owner == ss[i].core.reg[id] && ss[i].shelf.disk[id].owner !in ss[i].shelf.gone
  {
    RunInv(ss, acts, i);
    var s := ss[i];
    forall id | id in s.shelf.disk ensures RecordOk(s, id) {
    }
    forall id | id in s.shelf.disk && id in s.core.reg ensures s.core.reg[id] !in s.shelf.gone {
      RecordNotGone(s, id);
    }
  }

  lemma RecordNotGone(s: State, id: Id)
    requires Inv(s) && id in s.shelf.disk && id in s.core.reg
    ensures s.core.reg[id] !in s.shelf.gone
  {
    var o := s.core.reg[id];
    assert RecordOk(s, id);
    assert o in s.shelf.gone ==> GoneOk(s, o);
    if o in s.guard.fin {
      assert PcOk(s, s.threads[s.guard.fin[o]]);
    }
  }
}
