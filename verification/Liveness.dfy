/** Until a removal attempt closes, some thread can always take a step that brings it closer. */
module Liveness {
  import opened Model
  import opened JobCore
  import opened JobMachine
  import opened Ownership
  import opened QuietSteps
  import opened Invariant
  import opened LockSteps
  import opened RemovalSteps
  import opened RegistrySteps
  import opened Runs
  import opened Deletion
  import opened Progress

  lemma FreshTid(used: set<Tid>) returns (t: Tid)
    ensures t !in used
  {
    t := 0;
    var seen: set<Tid> := {};
    while t in used
      invariant forall u | u in seen :: u < t
      invariant seen <= used && |seen| == t
      decreases |used - seen|
    {
      assert t !in seen;
      seen := seen + {t};
      t := t + 1;
    }
  }

  // ---- the lock holder can always go on ----

  /**
    Whoever holds a saveMu is about to take a step that needs no other lock, so no reachable
    state is a deadlock: the holder writes, removes, or closes, whatever the others do.
   */
  lemma HolderCanMove(s: State, t: Tid) returns (act: Action, s': State)
    requires Inv(s) && t in s.threads && Holds(s.threads[t]).Some?
    ensures act.t == t && Step(s, act, s')
    ensures Holds(s.threads[t]).value in s'.guard.lock ==> s.threads[t].Remover?
  {
    var pc := s.threads[t];
    assert PcOk(s, pc);
    if pc.Storing? {
      act, s' := WriterEnds(s, t);
    } else if pc.Closer? {
      act, s' := CloserEnds(s, t);
    } else {
      act, s' := RemoverMoves(s, t);
    }
  }

  lemma WriterEnds(s: State, t: Tid) returns (act: Action, s': State)
    requires t in s.threads && s.threads[t].Storing? && s.threads[t].at.Writing?
    ensures act == SaveAct(t, SaveEnd(false, false)) && Step(s, act, s')
    ensures s.threads[t].o !in s'.guard.lock
  {
    var pc := s.threads[t];
    act := SaveAct(t, SaveEnd(false, false));
    s' := State(s.core, s.threads[t := AfterSave(pc.o, pc.k, false)], s.guard.(lock := s.guard.lock - {pc.o}), s.shelf);
  }

  lemma CloserEnds(s: State, t: Tid) returns (act: Action, s': State)
    requires t in s.threads && s.threads[t].Closer? && s.threads[t].a < |s.guard.atts|
    ensures act == RemoveAct(t, CloseDone) && Step(s, act, s')
    ensures s.threads[t].o !in s'.guard.lock
    ensures s.threads[t].a < |s'.guard.atts| && s'.guard.atts[s.threads[t].a].done
  {
    var pc := s.threads[t];
    act := RemoveAct(t, CloseDone);
    var g := s.guard;
    s' := State(s.core, s.threads[t := AfterFin(pc.f, pc.a, pc.failed)],
                Guard(g.lock - {pc.o}, g.fin, g.atts[pc.a := g.atts[pc.a].(done := true, failed := pc.failed)],
                      g.crashed || g.atts[pc.a].done), s.shelf);
  }

  /** The next step of a remover that is not waiting for the lock. */
  lemma RemoverMoves(s: State, t: Tid) returns (act: Action, s': State)
    requires Inv(s) && t in s.threads && s.threads[t].Remover?
    requires s.threads[t].r.Checking? ==> s.threads[t].o !in s.guard.lock
    ensures act.RemoveAct? && act.t == t && Step(s, act, s') && !act.rm.CloseDone?
  {
    var pc := s.threads[t];
    var o := pc.o;
    CheckFinds(s, t);
    match pc.r
    case Announcing =>
      act := RemoveAct(t, Announce);
      s' := s.(threads := WakeAll(s.threads)[t := pc.(r := RemoveAt.Checking)]);
    case Checking =>
      act := RemoveAct(t, Check);
      s' := s.(threads := s.threads[t := pc.(r := Removing(s.core.objs[o].removal.value))],
               guard := s.guard.(lock := s.guard.lock[o := t]));
    case Removing(a) =>
      act := RemoveAct(t, RemoveOk);
      s' := s.(threads := s.threads[t := pc.(r := Removed(a))],
               shelf := s.shelf.(disk := s.shelf.disk - {s.core.objs[o].job.id}, gone := s.shelf.gone + {o}));
    case Removed(a) =>
      act := RemoveAct(t, TakeOut);
      s' := s.(core := Unregister(s.core, o), threads := s.threads[t := Closer(o, a, false, pc.f)],
               guard := s.guard.(fin := s.guard.fin - {o}));
    case Stuck(a) =>
      act, s' := StuckMoves(s, t);
  }

  lemma StuckMoves(s: State, t: Tid) returns (act: Action, s': State)
    requires t in s.threads && s.threads[t].Remover? && s.threads[t].r.Stuck? && s.threads[t].o < |s.core.objs|
    ensures act.RemoveAct? && act.t == t && Step(s, act, s') && act.rm.GiveBack?
  {
    var pc := s.threads[t];
    var ch := FreshTid(s.threads.Keys);
    var r := Restore(s.core, pc.o);
    act := RemoveAct(t, GiveBack(ch));
    var th := s.threads[t := Closer(pc.o, pc.r.a, true, pc.f)];
    s' := s.(core := r.0, guard := s.guard.(fin := s.guard.fin - {pc.o}),
             threads := if r.1 then th[ch := ToSave(r.0, pc.o, Detached)] else th);
  }

  // ---- an owner can always go on ----

  /** The next step of a worker that owns a job, other than its epilogue. */
  lemma OwnerMoves(s: State, t: Tid) returns (act: Action, s': State)
    requires t in s.threads && s.threads[t].Owns? && !s.threads[t].w.Leaving? && s.threads[t].o < |s.core.objs|
    requires RoleOk(t, s.threads[t])
    ensures act.WorkAct? && act.t == t && Step(s, act, s') && !act.wk.Release? && t in s'.threads
    ensures Own(s'.threads[t]) == Own(s.threads[t]) && WorkLeft(s'.threads[t]) < WorkLeft(s.threads[t])
  {
    var pc := s.threads[t];
    var leave := Owns(pc.kind, pc.o, Leaving);
    match pc.w
    case Picked =>
      act := WorkAct(t, Begin);
      var c := BeginDownload(s.core, pc.o);
      s' := s.(core := c, threads := s.threads[t := ToSave(c, pc.o, Pipe)]);
    case Piping =>
      var out := DownloadFailed("", true, "");
      act := WorkAct(t, Finish(out));
      var e := FinishDownload(s.core, pc.o, out);
      s' := s.(core := e.0, threads := s.threads[t := if e.1 then ToSave(e.0, pc.o, Leave(pc.kind)) else leave]);
    case Fetching(n) =>
      act := WorkAct(t, FetchFailed);
      s' := s.(threads := s.threads[t := Owns(pc.kind, pc.o, NextFetch(s.core, pc.o, n))]);
    case Delaying(n) =>
      act := WorkAct(t, Waited(false));
      s' := s.(threads := s.threads[t := Owns(pc.kind, pc.o, Fetching(n + 1))]);
    case GivingUp =>
      act := WorkAct(t, Exhausted);
      s' := s.(core := TitleExhausted(s.core, pc.o), threads := s.threads[t := leave]);
    case Marking =>
      act := WorkAct(t, MarkFailed);
      s' := s.(core := MarkUnpersistable(s.core, pc.o), threads := s.threads[t := leave]);
  }

  lemma OwnerReleases(s: State, t: Tid) returns (act: Action, s': State)
    requires t in s.threads && s.threads[t].Owns? && s.threads[t].w.Leaving? && s.threads[t].o < |s.core.objs|
    ensures act == WorkAct(t, Release) && Step(s, act, s')
  {
    var pc := s.threads[t];
    var (c, finish) := ReleaseJob(s.core, pc.kind, pc.o);
    act := WorkAct(t, Release);
    s' := s.(core := c,
             threads := s.threads[t := if finish then Remover(pc.o, Announcing, ForWorker(pc.kind))
                                       else Loop(pc.kind, Waking)],
             guard := if finish then s.guard.(fin := s.guard.fin[pc.o := t]) else s.guard);
  }

  lemma OwnerSkips(s: State, t: Tid) returns (act: Action, s': State)
    requires t in s.threads && s.threads[t].Storing? && s.threads[t].at.Waiting? && s.threads[t].o < |s.core.objs|
    requires s.threads[t].o !in s.guard.lock && s.core.objs[s.threads[t].o].deleting
    ensures act == SaveAct(t, SaveBegin) && Step(s, act, s') && t in s'.threads
    ensures s'.threads[t] == AfterSave(s.threads[t].o, s.threads[t].k, true)
  {
    var pc := s.threads[t];
    act := SaveAct(t, SaveBegin);
    s' := s.(threads := s.threads[t := AfterSave(pc.o, pc.k, true)]);
  }

  // ---- some possible step lowers the measure ----

  /** The holder of o's lock, when it is not the finalizer, can let go of it. */
  lemma HolderLowers(s: State, o: Oid) returns (act: Action, s': State)
    requires Inv(s) && Registered(s.core, o) && s.core.objs[o].deleting && o in s.guard.lock
    requires !s.threads[s.guard.lock[o]].Remover?
    ensures Step(s, act, s') && JobRank(s', o) < JobRank(s, o)
  {
    var t := s.guard.lock[o];
    assert PcOk(s, s.threads[t]);
    if s.threads[t].Storing? {
      act, s' := WriterEnds(s, t);
      SaveRank(s, t, SaveEnd(false, false), s', o);
    } else {
      act, s' := CloserEnds(s, t);
      CloserRank(s, t, s', o);
    }
  }

  /** A step of an owner of o that leaves the lock alone lowers the measure. */
  lemma OwnerStepLowers(s: State, t: Tid, s': State, o: Oid)
    requires Inv(s) && Quiet(s, s') && t in s.threads && t in s'.threads && KnownStay(s.threads, t, s'.threads)
    requires t <= 2 && Own(s.threads[t]) == Some(o) && Own(s'.threads[t]) == Some(o)
    requires WorkLeft(s'.threads[t]) < WorkLeft(s.threads[t])
    ensures JobRank(s', o) < JobRank(s, o)
  {
    QuietFinLeft(s, s', o);
    MoveRank(s, s', t, o);
  }

  lemma OwnsLowers(s: State, t: Tid) returns (act: Action, s': State)
    requires Inv(s) && t in s.threads && s.threads[t].Owns?
    requires Registered(s.core, s.threads[t].o) && s.core.objs[s.threads[t].o].deleting
    ensures Step(s, act, s') && JobRank(s', s.threads[t].o) < JobRank(s, s.threads[t].o)
  {
    assert RoleOk(t, s.threads[t]);
    if s.threads[t].w.Leaving? {
      act, s' := OwnerReleases(s, t);
      ReleaseRank(s, t, s', s.threads[t].o);
    } else {
      act, s' := OwnerMoves(s, t);
      OwnStepQuiet(s, t, act.wk, s');
      StepStays(s, act, s');
      OwnerStepLowers(s, t, s', s.threads[t].o);
    }
  }

  lemma WaiterLowers(s: State, t: Tid) returns (act: Action, s': State)
    requires Inv(s) && t in s.threads && s.threads[t].Storing? && s.threads[t].at.Waiting? && Own(s.threads[t]).Some?
    requires Registered(s.core, s.threads[t].o) && s.core.objs[s.threads[t].o].deleting
    requires s.threads[t].o !in s.guard.fin && s.threads[t].o !in s.guard.lock
    ensures Step(s, act, s') && JobRank(s', s.threads[t].o) < JobRank(s, s.threads[t].o)
  {
    assert RoleOk(t, s.threads[t]);
    act, s' := OwnerSkips(s, t);
    SkipLowers(s, t, s');
  }

  lemma SkipLowers(s: State, t: Tid, s': State)
    requires Inv(s) && SaveNext(s, t, SaveBegin, s') && Own(s.threads[t]).Some? && t <= 2 && t in s'.threads
    requires s.threads[t].at.Waiting? && s'.threads[t] == AfterSave(s.threads[t].o, s.threads[t].k, true)
    requires s.threads[t].o < |s.core.objs| && s.core.objs[s.threads[t].o].deleting
    ensures JobRank(s', s.threads[t].o) < JobRank(s, s.threads[t].o)
  {
    SaveSkipQuiet(s, t, s');
    StepStays(s, SaveAct(t, SaveBegin), s');
    SkipNearer(s, t, s');
    OwnerStepLowers(s, t, s', s.threads[t].o);
  }

  lemma SkipNearer(s: State, t: Tid, s': State)
    requires t in s.threads && t in s'.threads && s.threads[t].Storing? && s.threads[t].at.Waiting?
    requires Own(s.threads[t]).Some? && s'.threads[t] == AfterSave(s.threads[t].o, s.threads[t].k, true)
    ensures Own(s'.threads[t]) == Own(s.threads[t]) && WorkLeft(s'.threads[t]) < WorkLeft(s.threads[t])
  {
  }

  lemma StoresLowers(s: State, t: Tid) returns (act: Action, s': State)
    requires Inv(s) && t in s.threads && s.threads[t].Storing? && Own(s.threads[t]).Some?
    requires Registered(s.core, s.threads[t].o) && s.core.objs[s.threads[t].o].deleting
    requires s.threads[t].o !in s.guard.fin
    ensures Step(s, act, s') && JobRank(s', s.threads[t].o) < JobRank(s, s.threads[t].o)
  {
    var o := s.threads[t].o;
    assert s.threads[t].at.Writing? ==> o in s.guard.lock;
    if o in s.guard.lock {
      NoRemoverHolds(s, o);
      act, s' := HolderLowers(s, o);
    } else {
      act, s' := WaiterLowers(s, t);
    }
  }

  lemma NoRemoverHolds(s: State, o: Oid)
    requires Inv(s) && o in s.guard.lock && o !in s.guard.fin
    ensures !s.threads[s.guard.lock[o]].Remover?
  {
    assert Holds(s.threads[s.guard.lock[o]]) == Some(o);
    HolderRegistered(s, s.guard.lock[o]);
  }

  /** While workers own the job, one of them, or the lock holder, can come closer to leaving. */
  lemma OwnedLowers(s: State, o: Oid) returns (act: Action, s': State)
    requires Inv(s) && Registered(s.core, o) && s.core.objs[o].deleting && Owned(s.core, o)
    ensures Step(s, act, s') && JobRank(s', o) < JobRank(s, o)
  {
    assert RemovalOk(s.core, s.guard.fin, o);
    var t: Tid := if s.core.objs[o].active then 0 else if Own(s.threads[1]) == Some(o) then 1 else 2;
    assert Own(s.threads[t]) == Some(o);
    if s.threads[t].Owns? {
      act, s' := OwnsLowers(s, t);
    } else {
      act, s' := StoresLowers(s, t);
    }
  }

  predicate RankFalls(s: State, s': State, a: Aid) {
    a < |s.guard.atts| && a < |s'.guard.atts| && Rank(s', a) < Rank(s, a)
  }

  lemma JobRankFalls(s: State, act: Action, s': State, a: Aid)
    requires Inv(s) && Step(s, act, s') && Current(s, a) && !s.guard.atts[a].done
    requires JobRank(s', s.guard.atts[a].o) < JobRank(s, s.guard.atts[a].o)
    ensures RankFalls(s, s', a)
  {
    ClosedOnce(s, act, s', a);
    JobRankIsRank(s, s', a);
  }

  lemma JobRankIsRank(s: State, s': State, a: Aid)
    requires Current(s, a) && !s.guard.atts[a].done && a < |s'.guard.atts|
    requires s'.guard.atts[a].o == s.guard.atts[a].o
    requires JobRank(s', s.guard.atts[a].o) < JobRank(s, s.guard.atts[a].o)
    ensures RankFalls(s, s', a)
  {
  }

  /** Once no worker owns the job, its finalizer, or the lock holder, can go on. */
  lemma FinalizerLowers(s: State, a: Aid) returns (act: Action, s': State)
    requires Inv(s) && Current(s, a) && !s.guard.atts[a].done && !Owned(s.core, s.guard.atts[a].o)
    ensures Step(s, act, s') && RankFalls(s, s', a)
  {
    var o := s.guard.atts[a].o;
    CurrentDeleting(s, a);
    assert RemovalOk(s.core, s.guard.fin, o);
    var t := s.guard.fin[o];
    if o in s.guard.lock && !s.threads[s.guard.lock[o]].Remover? {
      act, s' := HolderLowers(s, o);
      JobRankFalls(s, act, s', a);
    } else {
      RemoverHoldsOwn(s, o);
      act, s' := RemoverMoves(s, t);
      RemoverFalls(s, act, s', a);
    }
  }

  lemma RemoverHoldsOwn(s: State, o: Oid)
    requires Inv(s) && o in s.guard.fin && (o in s.guard.lock ==> s.threads[s.guard.lock[o]].Remover?)
    ensures s.threads[s.guard.fin[o]].Remover? && s.threads[s.guard.fin[o]].o == o
    ensures s.threads[s.guard.fin[o]].r.Checking? ==> o !in s.guard.lock
  {
    if o in s.guard.lock {
      var u := s.guard.lock[o];
      assert Removal(s.threads[u]) == Some(o);
    }
  }

  lemma RemoverFalls(s: State, act: Action, s': State, a: Aid)
    requires Inv(s) && Step(s, act, s') && act.RemoveAct? && !act.rm.CloseDone? && Current(s, a) &&
      !s.guard.atts[a].done
    requires act.t in s.threads && s.threads[act.t].Remover? && s.threads[act.t].o == s.guard.atts[a].o
    ensures RankFalls(s, s', a)
  {
    if act.rm.TakeOut? || act.rm.GiveBack? {
      EndFacts(s, act.t, act.rm, s');
      EndFalls(s, act.t, act.rm, s', a);
    } else {
      RemoverRank(s, act.t, act.rm, s', s.guard.atts[a].o);
      JobRankFalls(s, act, s', a);
    }
  }

  /** With the removal's last section the attempt is no longer the job's current one. */
  lemma EndFalls(s: State, t: Tid, rm: RemoveStep, s': State, a: Aid)
    requires Current(s, a) && !s.guard.atts[a].done && t in s.threads && s.threads[t].Remover?
    requires s.threads[t].o == s.guard.atts[a].o && s.threads[t].r.Stuck? == rm.GiveBack?
    requires s.threads[t].r.Stuck? || s.threads[t].r.Removed?
    requires EndStep(s, t, s.threads[t].o, s.threads[t].r.a, rm.GiveBack?, s.threads[t].f, s')
    ensures RankFalls(s, s', a)
  {
    assert Registered(s'.core, s.guard.atts[a].o) ==> s'.core.objs[s.guard.atts[a].o].removal.None?;
  }

  /** Until the attempt closes, some possible step of some thread lowers its measure. */
  lemma SomeStepLowers(s: State, a: Aid)
    requires Inv(s) && a < |s.guard.atts| && !s.guard.atts[a].done
    ensures exists act, s' :: Step(s, act, s') && RankFalls(s, s', a)
  {
    var act, s' := StepLowers(s, a);
  }

  lemma StepLowers(s: State, a: Aid) returns (act: Action, s': State)
    requires Inv(s) && a < |s.guard.atts| && !s.guard.atts[a].done
    ensures Step(s, act, s') && RankFalls(s, s', a)
  {
    var o := s.guard.atts[a].o;
    assert AttemptOk(s, a);
    if !Current(s, a) {
      var t := s.guard.lock[o];
      assert PcOk(s, s.threads[t]);
      act, s' := CloserEnds(s, t);
    } else if Owned(s.core, o) {
      CurrentDeleting(s, a);
      act, s' := OwnedLowers(s, o);
      JobRankFalls(s, act, s', a);
    } else {
      act, s' := FinalizerLowers(s, a);
    }
  }

  // ---- so every removal can be completed ----

  lemma PrependStep(s: State, act: Action, ss: seq<State>, acts: seq<Action>)
    requires Path(ss, acts) && Step(s, act, ss[0])
    ensures Path([s] + ss, [act] + acts)
  {
    var ss', acts' := [s] + ss, [act] + acts;
    forall i | 0 <= i < |acts'| ensures Moves(ss', acts', i) {
      if i > 0 {
        assert Moves(ss, acts, i - 1);
        assert ss'[i] == ss[i - 1] && ss'[i + 1] == ss[i] && acts'[i] == acts[i - 1];
      }
    }
  }

  /** From every reachable state every open attempt can be closed within Rank steps. */
  lemma {:induction false} RemovalCanComplete(s: State, a: Aid) returns (ss: seq<State>, acts: seq<Action>)
    requires Inv(s) && a < |s.guard.atts|
    ensures Path(ss, acts) && ss[0] == s && |acts| <= Rank(s, a)
    ensures a < |ss[|acts|].guard.atts| && ss[|acts|].guard.atts[a].done
    decreases Rank(s, a)
  {
    if s.guard.atts[a].done {
      ss, acts := [s], [];
    } else {
      var act, s' := StepLowers(s, a);
      StepKeeps(s, act, s');
      ss, acts := RemovalCanComplete(s', a);
      PrependStep(s, act, ss, acts);
      ss, acts := [s] + ss, [act] + acts;
    }
  }
}
