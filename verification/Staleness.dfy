/**
  When the store is behind memory for good. A registered job is stale when neither its current
  version is stored nor a save that will store it is under way. Exactly five kinds of step make a
  job stale, Recover being the sixth source; only a new save ends it.
 */
module Staleness {
  import opened Model
  import opened JobCore
  import opened JobMachine
  import opened Ownership
  import opened Invariant
  import opened LockSteps
  import opened Runs
  import opened Deletion
  import opened Progress

  /** The store has the job's current version. */
  predicate IsStored(s: State, o: Oid) {
    && o < |s.core.objs|
    && var id := s.core.objs[o].job.id;
    id in s.shelf.disk && s.shelf.disk[id].owner == o && s.shelf.disk[id].ver == s.core.objs[o].ver
  }

  predicate InRest(rest: seq<(Oid, nat)>, o: Oid) {
    exists k :: 0 <= k < |rest| && rest[k].0 == o
  }

  /** The thread has yet to take the snapshot of o that it is going to write. */
  predicate WillSave(pc: Pc, o: Oid) {
    pc.Storing? && ((pc.o == o && pc.at.Waiting?) || (pc.k.CloseSaves? && InRest(pc.k.rest, o)))
  }

  /** The thread is writing version ver of o. */
  predicate WritesNow(pc: Pc, o: Oid, ver: nat) {
    pc.Storing? && pc.o == o && pc.at.Writing? && pc.at.ver == ver
  }

  /** Some save will store the job's current version, if its write succeeds. */
  ghost predicate UnderWay(s: State, o: Oid)
    requires o < |s.core.objs|
  {
    exists t :: t in s.threads && (WillSave(s.threads[t], o) || WritesNow(s.threads[t], o, s.core.objs[o].ver))
  }

  ghost predicate Stale(s: State, o: Oid) {
    Registered(s.core, o) && o !in s.shelf.gone && !IsStored(s, o) && !UnderWay(s, o)
  }

  // ---- the causes ----

  datatype Cause = SizeSeen | Unpersistable | Skipped | WriteFailed | RecordLost

  /** The action is one of the five kinds of step, for job o. */
  predicate Causes(s: State, a: Action, o: Oid, cause: Cause) {
    match cause
    case SizeSeen =>  // List records a size that differs from the recorded one
      && a.CallerAct? && a.ca.ListOne? && a.ca.size.Some? && a.ca.size.value != 0 && a.t in s.threads
      && s.threads[a.t].Client? && s.threads[a.t].q.Checking? && s.threads[a.t].q.todo != []
      && s.threads[a.t].q.todo[0] == o && Registered(s.core, o) && !s.core.objs[o].deleting
      && a.ca.size.value != s.core.objs[o].job.size
    case Unpersistable =>  // markUnpersistable
      && a.WorkAct? && a.wk.MarkFailed? && a.t in s.threads && s.threads[a.t].Owns? && s.threads[a.t].o == o
      && Registered(s.core, o) && !s.core.objs[o].deleting
      && Fail(s.core.objs[o], UNPERSISTABLE).job != s.core.objs[o].job
    case Skipped =>  // saveCurrent finds the job deleting
      && a.SaveAct? && a.sv.SaveBegin? && a.t in s.threads && s.threads[a.t].Storing? && s.threads[a.t].o == o
      && o < |s.core.objs| && s.core.objs[o].deleting && !IsStored(s, o)
    case WriteFailed =>
      && a.SaveAct? && a.sv.SaveEnd? && !a.sv.wrote && a.t in s.threads && s.threads[a.t].Storing?
      && s.threads[a.t].o == o && !IsStored(s, o)
    case RecordLost =>  // a failed removal that got as far as the record
      && a.RemoveAct? && a.rm == RemoveFailed(true) && a.t in s.threads && s.threads[a.t].Remover?
      && s.threads[a.t].o == o
  }

  ghost predicate CausedBy(s: State, a: Action, o: Oid) {
    exists cause :: Causes(s, a, o, cause)
  }

  /** Apart from what thread t is doing right now, nobody is about to save o. */
  ghost predicate Lonely(s: State, t: Tid, o: Oid) {
    && (forall u | u in s.threads && u != t :: !WillSave(s.threads[u], o))
    && (t in s.threads && s.threads[t].Storing? && s.threads[t].k.CloseSaves? ==> !InRest(s.threads[t].k.rest, o))
  }

  // ---- threads ----

  /** Another thread that will save o still will, after a step of thread t. */
  lemma OtherStillSaves(s: State, t: Tid, s': State, o: Oid, u: Tid)
    requires KnownStay(s.threads, t, s'.threads) && u in s.threads && u != t && WillSave(s.threads[u], o)
    requires o < |s'.core.objs|
    ensures UnderWay(s', o)
  {
    assert u in s'.threads && WillSave(s'.threads[u], o);
  }

  /** A job whose version and record stay is no staler, if thread t keeps its own promise. */
  lemma StaysFresh(s: State, t: Tid, s': State, o: Oid)
    requires KnownStay(s.threads, t, s'.threads) && Registered(s.core, o) && o !in s.shelf.gone && !Stale(s, o)
    requires o < |s'.core.objs| && s'.core.objs[o].ver == s.core.objs[o].ver
    requires IsStored(s, o) ==> IsStored(s', o)
    requires t in s.threads && s.threads[t].Storing? ==>
      t in s'.threads
      && (WillSave(s.threads[t], o) || WritesNow(s.threads[t], o, s.core.objs[o].ver) ==>
            WillSave(s'.threads[t], o) || WritesNow(s'.threads[t], o, s.core.objs[o].ver))
    ensures !Stale(s', o)
  {
    if !IsStored(s, o) {
      var u :| u in s.threads && (WillSave(s.threads[u], o) || WritesNow(s.threads[u], o, s.core.objs[o].ver));
      assert u in s'.threads && (WillSave(s'.threads[u], o) || WritesNow(s'.threads[u], o, s.core.objs[o].ver));
    }
  }

  lemma SavedAnew(s': State, o: Oid, u: Tid)
    requires o < |s'.core.objs| && u in s'.threads && WillSave(s'.threads[u], o)
    ensures !Stale(s', o)
  {
  }

  /** No thread but t will save o or is writing it at its version now: then nobody is, after t's step. */
  lemma NobodySaves(s: State, t: Tid, s': State, o: Oid)
    requires Lonely(s, t, o) && KnownStay(s.threads, t, s'.threads) && o < |s'.core.objs|
    requires forall u | u in s.threads && u != t :: !WritesNow(s.threads[u], o, s'.core.objs[o].ver)
    requires forall u | u in s'.threads && u !in s.threads :: !s'.threads[u].Storing?
    requires t in s.threads && t in s'.threads
    requires !WillSave(s'.threads[t], o) && !WritesNow(s'.threads[t], o, s'.core.objs[o].ver)
    ensures !UnderWay(s', o)
  {
    forall u | u in s'.threads
      ensures !WillSave(s'.threads[u], o) && !WritesNow(s'.threads[u], o, s'.core.objs[o].ver)
    {
      assert u != t && u in s.threads ==> s'.threads[u] == s.threads[u] || s'.threads[u] == Woken(s.threads[u]);
    }
  }

  /** Only the holder of o's lock is writing o. */
  lemma OneWriter(s: State, t: Tid, o: Oid, u: Tid, ver: nat)
    requires LocksOk(s.threads, s.guard.lock) && u in s.threads && u != t
    requires o !in s.guard.lock || s.guard.lock[o] == t
    ensures !WritesNow(s.threads[u], o, ver)
  {
  }

  /** Writes under way, and the record, are of versions up to the current one. */
  lemma UpToNow(s: State, o: Oid)
    requires PcsOk(s) && ShelfOk(s) && Registered(s.core, o)
    ensures forall u | u in s.threads && s.threads[u].Storing? && s.threads[u].o == o && s.threads[u].at.Writing? ::
              s.threads[u].at.ver <= s.core.objs[o].ver
    ensures var id := s.core.objs[o].job.id; id in s.shelf.disk ==> s.shelf.disk[id].ver <= s.core.objs[o].ver
  {
    forall u | u in s.threads && s.threads[u].Storing? && s.threads[u].o == o && s.threads[u].at.Writing?
      ensures s.threads[u].at.ver <= s.core.objs[o].ver
    {
      assert PcOk(s, s.threads[u]);
    }
    var id := s.core.objs[o].job.id;
    assert id in s.shelf.disk ==> RecordOk(s, id);
  }

  // ---- an edit that nobody saves ----

  /** Thread t edited o and started no save; o is stale unless somebody was about to save it. */
  lemma EditLeavesStale(s: State, t: Tid, s': State, o: Oid)
    requires PcsOk(s) && ShelfOk(s) && Registered(s.core, o) && o !in s.shelf.gone
    requires Registered(s'.core, o) && s'.shelf == s.shelf && s'.core.objs[o].ver > s.core.objs[o].ver
    requires s'.core.objs[o].job.id == s.core.objs[o].job.id
    requires KnownStay(s.threads, t, s'.threads) && t in s.threads && t in s'.threads
    requires !s.threads[t].Storing? && !s'.threads[t].Storing?
    requires forall u | u in s'.threads && u !in s.threads :: !s'.threads[u].Storing?
    ensures Stale(s', o) <==> Lonely(s, t, o)
  {
    UpToNow(s, o);
    if Lonely(s, t, o) {
      NobodySaves(s, t, s', o);
    } else {
      var u :| u in s.threads && u != t && WillSave(s.threads[u], o);
      OtherStillSaves(s, t, s', o, u);
    }
  }

  // ---- workers ----

  /** Who starts a save in this step. */
  function Saver(t: Tid, wk: WorkStep): Tid {
    if wk.Progress? then wk.ch else t
  }

  lemma OwnVersion(s: State, t: Tid, kind: Kind, p: Oid, w: Work, wk: WorkStep, s': State, o: Oid)
    requires p < |s.core.objs| && OwnStep(s, t, kind, p, w, wk, s') && o < |s.core.objs| && !wk.MarkFailed?
    ensures o < |s'.core.objs| && s.core.objs[o].ver <= s'.core.objs[o].ver
    ensures s'.core.objs[o].job.id == s.core.objs[o].job.id && (Registered(s'.core, o) == Registered(s.core, o))
    ensures s'.core.objs[o].ver != s.core.objs[o].ver ==>
      Saver(t, wk) in s'.threads && WillSave(s'.threads[Saver(t, wk)], o)
  {
  }

  lemma MarkVersion(s: State, t: Tid, kind: Kind, p: Oid, w: Work, s': State, o: Oid)
    requires p < |s.core.objs| && OwnStep(s, t, kind, p, w, MarkFailed, s') && o < |s.core.objs|
    ensures o < |s'.core.objs| && s'.core.objs[o].job.id == s.core.objs[o].job.id
    ensures Registered(s'.core, o) == Registered(s.core, o) && t in s'.threads && !s'.threads[t].Storing?
    ensures if p == o && Registered(s.core, o) && !s.core.objs[o].deleting
               && Fail(s.core.objs[o], UNPERSISTABLE).job != s.core.objs[o].job
            then s'.core.objs[o].ver > s.core.objs[o].ver else s'.core.objs[o].ver == s.core.objs[o].ver
  {
  }

  lemma WorkVersion(s: State, t: Tid, wk: WorkStep, s': State, o: Oid)
    requires WorkNext(s, t, wk, s') && o < |s.core.objs|
    ensures o < |s'.core.objs| && s.core.objs[o].ver <= s'.core.objs[o].ver
    ensures s'.core.objs[o].job.id == s.core.objs[o].job.id && (Registered(s'.core, o) == Registered(s.core, o))
    ensures s'.core.objs[o].ver != s.core.objs[o].ver && !Causes(s, WorkAct(t, wk), o, Unpersistable) ==>
      Saver(t, wk) in s'.threads && WillSave(s'.threads[Saver(t, wk)], o)
    ensures Causes(s, WorkAct(t, wk), o, Unpersistable) ==>
      s'.core.objs[o].ver > s.core.objs[o].ver && !s'.threads[t].Storing?
  {
    var pc := s.threads[t];
    if wk.MarkFailed? {
      MarkVersion(s, t, pc.kind, pc.o, pc.w, s', o);
    } else if pc.Owns? && !wk.Release? {
      OwnVersion(s, t, pc.kind, pc.o, pc.w, wk, s', o);
    }
  }

  lemma WorkThreads(s: State, t: Tid, wk: WorkStep, s': State)
    requires WorkNext(s, t, wk, s')
    ensures t in s.threads && t in s'.threads && !s.threads[t].Storing? && KnownStay(s.threads, t, s'.threads)
    ensures !wk.Progress? ==> forall u | u in s'.threads && u !in s.threads :: !s'.threads[u].Storing?
  {
  }

  lemma WorkStale(s: State, t: Tid, wk: WorkStep, s': State, o: Oid)
    requires PcsOk(s) && ShelfOk(s) && WorkNext(s, t, wk, s')
    requires Registered(s.core, o) && o !in s.shelf.gone && !Stale(s, o)
    ensures Stale(s', o) <==> CausedBy(s, WorkAct(t, wk), o) && Lonely(s, t, o)
  {
    WorkVersion(s, t, wk, s', o);
    WorkThreads(s, t, wk, s');
    if Causes(s, WorkAct(t, wk), o, Unpersistable) {
      EditLeavesStale(s, t, s', o);
    } else if s'.core.objs[o].ver == s.core.objs[o].ver {
      StaysFresh(s, t, s', o);
    } else {
      SavedAnew(s', o, Saver(t, wk));
    }
  }

  // ---- saves ----

  lemma SaveThreads(s: State, t: Tid, sv: SaveStep, s': State, o: Oid)
    requires SaveNext(s, t, sv, s')
    ensures t in s'.threads && KnownStay(s.threads, t, s'.threads) && s'.threads.Keys == s.threads.Keys
    ensures s.threads[t].k.CloseSaves? && InRest(s.threads[t].k.rest, o) ==> WillSave(s'.threads[t], o)
  {
    var k := s.threads[t].k;
    if k.CloseSaves? && InRest(k.rest, o) {
      var i :| 0 <= i < |k.rest| && k.rest[i].0 == o;
      if i > 0 {
        assert k.rest[1..][i - 1].0 == o;
      }
    }
  }

  lemma SaveBeginStale(s: State, t: Tid, s': State, o: Oid)
    requires LocksOk(s.threads, s.guard.lock) && SaveNext(s, t, SaveBegin, s')
    requires Registered(s.core, o) && o !in s.shelf.gone && !Stale(s, o)
    ensures Stale(s', o) <==> CausedBy(s, SaveAct(t, SaveBegin), o) && Lonely(s, t, o)
  {
    SaveThreads(s, t, SaveBegin, s', o);
    if IsStored(s, o) {
      StaysStored(s, s', o);
    } else if !Causes(s, SaveAct(t, SaveBegin), o, Skipped) {
      StaysFresh(s, t, s', o);
    } else if Lonely(s, t, o) {
      forall u | u in s.threads && u != t ensures !WritesNow(s.threads[u], o, s'.core.objs[o].ver) {
        OneWriter(s, t, o, u, s'.core.objs[o].ver);
      }
      NobodySaves(s, t, s', o);
    } else {
      SomebodySaves(s, t, s', o);
    }
  }

  lemma SomebodySaves(s: State, t: Tid, s': State, o: Oid)
    requires KnownStay(s.threads, t, s'.threads) && o < |s'.core.objs| && !Lonely(s, t, o) && t in s'.threads
    requires t in s.threads && s.threads[t].Storing? && s.threads[t].k.CloseSaves? && InRest(s.threads[t].k.rest, o) ==>
      WillSave(s'.threads[t], o)
    ensures !Stale(s', o)
  {
    if exists u :: u in s.threads && u != t && WillSave(s.threads[u], o) {
      var u :| u in s.threads && u != t && WillSave(s.threads[u], o);
      OtherStillSaves(s, t, s', o, u);
    } else {
      SavedAnew(s', o, t);
    }
  }

  lemma SaveEndStale(s: State, t: Tid, sv: SaveStep, s': State, o: Oid)
    requires LocksOk(s.threads, s.guard.lock) && PcsOk(s) && ShelfOk(s) && SaveNext(s, t, sv, s') && sv.SaveEnd?
    requires Registered(s.core, o) && o !in s.shelf.gone && !Stale(s, o)
    ensures Stale(s', o) <==> CausedBy(s, SaveAct(t, sv), o) && Lonely(s, t, o)
  {
    SaveThreads(s, t, sv, s', o);
    assert PcOk(s, s.threads[t]);
    if s.threads[t].o != o {
      OtherRecordStays(s, t, sv, s', o);
      StaysFresh(s, t, s', o);
    } else if sv.wrote {
      WroteIsFresh(s, t, sv, s', o);
    } else if IsStored(s, o) {
      StaysStored(s, s', o);
    } else if Lonely(s, t, o) {
      assert Causes(s, SaveAct(t, sv), o, WriteFailed);
      WriterIsAlone(s, t, s', o);
      NobodySaves(s, t, s', o);
    } else {
      SomebodySaves(s, t, s', o);
    }
  }

  lemma StaysStored(s: State, s': State, o: Oid)
    requires IsStored(s, o) && s'.core == s.core && s'.shelf == s.shelf
    ensures !Stale(s', o)
  {
  }

  lemma OtherRecordStays(s: State, t: Tid, sv: SaveStep, s': State, o: Oid)
    requires Registered(s.core, o) && SaveNext(s, t, sv, s') && sv.SaveEnd? && s.threads[t].o != o
    requires Registered(s.core, s.threads[t].o) && s.threads[t].at.snap.id == s.core.objs[s.threads[t].o].job.id
    ensures IsStored(s, o) ==> IsStored(s', o)
  {
  }

  lemma WriterIsAlone(s: State, t: Tid, s': State, o: Oid)
    requires LocksOk(s.threads, s.guard.lock) && t in s.threads && Holds(s.threads[t]) == Some(o)
    requires o < |s'.core.objs|
    ensures forall u | u in s.threads && u != t :: !WritesNow(s.threads[u], o, s'.core.objs[o].ver)
  {
    forall u | u in s.threads && u != t ensures !WritesNow(s.threads[u], o, s'.core.objs[o].ver) {
      OneWriter(s, t, o, u, s'.core.objs[o].ver);
    }
  }

  /** A write stores the current version, or another save is still to do so. */
  lemma WroteIsFresh(s: State, t: Tid, sv: SaveStep, s': State, o: Oid)
    requires LocksOk(s.threads, s.guard.lock) && ShelfOk(s) && SaveNext(s, t, sv, s') && sv.SaveEnd? && sv.wrote
    requires s.threads[t].o == o && PcOk(s, s.threads[t]) && o !in s.shelf.gone && !Stale(s, o)
    requires KnownStay(s.threads, t, s'.threads) && t in s'.threads
    requires s.threads[t].k.CloseSaves? && InRest(s.threads[t].k.rest, o) ==> WillSave(s'.threads[t], o)
    ensures !Stale(s', o)
  {
    if s.threads[t].at.ver != s.core.objs[o].ver {
      assert !IsStored(s, o);
      var u :| u in s.threads && (WillSave(s.threads[u], o) || WritesNow(s.threads[u], o, s.core.objs[o].ver));
      if u != t {
        OneWriter(s, t, o, u, s.core.objs[o].ver);
        OtherStillSaves(s, t, s', o, u);
      } else {
        SavedAnew(s', o, t);
      }
    }
  }

  // ---- removals ----

  lemma RemoveVersion(s: State, t: Tid, rm: RemoveStep, s': State, o: Oid)
    requires RemoveNext(s, t, rm, s') && o < |s.core.objs|
    ensures o < |s'.core.objs| && s'.core.objs[o].job.id == s.core.objs[o].job.id
    ensures s.core.objs[o].ver <= s'.core.objs[o].ver
    ensures s'.core.objs[o].ver != s.core.objs[o].ver ==>
      rm.GiveBack? && rm.ch in s'.threads && WillSave(s'.threads[rm.ch], o)
    ensures t in s'.threads && !s.threads[t].Storing? && !s'.threads[t].Storing? && KnownStay(s.threads, t, s'.threads)
  {
  }

  lemma RemoveRecord(s: State, t: Tid, rm: RemoveStep, s': State, o: Oid)
    requires RemoveNext(s, t, rm, s') && Registered(s.core, o)
    requires s.threads[t].Remover? ==> Registered(s.core, s.threads[t].o)
    requires s'.core.objs[o].job.id == s.core.objs[o].job.id
    requires s'.core.objs[o].ver == s.core.objs[o].ver && o < |s'.core.objs|
    requires !Causes(s, RemoveAct(t, rm), o, RecordLost) && o !in s'.shelf.gone
    ensures IsStored(s, o) ==> IsStored(s', o)
  {
  }

  lemma LostIsStale(s: State, t: Tid, rm: RemoveStep, s': State, o: Oid)
    requires LocksOk(s.threads, s.guard.lock) && RemoveNext(s, t, rm, s') && Causes(s, RemoveAct(t, rm), o, RecordLost)
    requires Registered(s.core, o) && o !in s.shelf.gone
    ensures Stale(s', o) <==> Lonely(s, t, o)
  {
    RemoveVersion(s, t, rm, s', o);
    if Lonely(s, t, o) {
      WriterIsAlone(s, t, s', o);
      NobodySaves(s, t, s', o);
    } else {
      SomebodySaves(s, t, s', o);
    }
  }

  lemma RemoveStale(s: State, t: Tid, rm: RemoveStep, s': State, o: Oid)
    requires OwnershipOk(s) && LocksOk(s.threads, s.guard.lock) && PcsOk(s) && RemoveNext(s, t, rm, s')
    requires Registered(s.core, o) && o !in s.shelf.gone && !Stale(s, o)
    ensures Stale(s', o) <==> CausedBy(s, RemoveAct(t, rm), o) && Lonely(s, t, o)
  {
    if Causes(s, RemoveAct(t, rm), o, RecordLost) {
      LostIsStale(s, t, rm, s', o);
    } else {
      HolderRegistered(s, t);
      RemoveFresh(s, t, rm, s', o);
    }
  }

  lemma RemoveFresh(s: State, t: Tid, rm: RemoveStep, s': State, o: Oid)
    requires RemoveNext(s, t, rm, s') && Registered(s.core, o) && o !in s.shelf.gone && !Stale(s, o)
    requires s.threads[t].Remover? ==> Registered(s.core, s.threads[t].o)
    requires !Causes(s, RemoveAct(t, rm), o, RecordLost)
    ensures !Stale(s', o)
  {
    RemoveVersion(s, t, rm, s', o);
    if s'.core.objs[o].ver != s.core.objs[o].ver {
      SavedAnew(s', o, rm.ch);
    } else if o !in s'.shelf.gone {
      RemoveRecord(s, t, rm, s', o);
      StaysFresh(s, t, s', o);
    }
  }

  // ---- callers ----

  /** Who starts a save in this step. */
  function CallerSaver(t: Tid, ca: CallerStep): Tid {
    if ca.SubmitOnce? || ca.RetryOnce? || ca.ListOne? then ca.ch else t
  }

  lemma CloseSavesAll(c: Core, order: seq<Oid>, o: Oid)
    requires o in order
    ensures WillSave(CloseNext(Versions(c, order)), o)
  {
    var k :| 0 <= k < |order| && order[k] == o;
    var rest := Versions(c, order);
    assert rest[k].0 == o;
    if k > 0 {
      assert rest[1..][k - 1].0 == o;
    }
  }

  lemma CloseVersion(s: State, t: Tid, ca: CallerStep, s': State, o: Oid)
    requires CallerNext(s, t, ca, s') && ca.CloseEnd? && o < |s.core.objs|
    ensures o < |s'.core.objs| && s'.core.objs[o].job.id == s.core.objs[o].job.id
    ensures Registered(s'.core, o) == Registered(s.core, o)
    ensures s'.core.objs[o].ver != s.core.objs[o].ver ==> t in s'.threads && WillSave(s'.threads[t], o)
  {
    if Interrupted(s.core, o) {
      assert o in InterruptedJobs(s.core) && o in ca.order;
      CloseSavesAll(Interrupt(s.core), ca.order, o);
    }
  }

  lemma ListVersion(s: State, t: Tid, ca: CallerStep, s': State, o: Oid)
    requires CallerNext(s, t, ca, s') && ca.ListOne? && o < |s.core.objs|
    ensures o < |s'.core.objs| && s'.core.objs[o].job.id == s.core.objs[o].job.id
    ensures Registered(s'.core, o) == Registered(s.core, o)
    ensures if Causes(s, CallerAct(t, ca), o, SizeSeen)
            then s'.core.objs[o].ver > s.core.objs[o].ver && s'.threads == s.threads[t := s'.threads[t]]
                 && t in s'.threads && !s'.threads[t].Storing?
            else s'.core.objs[o].ver != s.core.objs[o].ver ==> ca.ch in s'.threads && WillSave(s'.threads[ca.ch], o)
  {
  }

  lemma OtherVersion(s: State, t: Tid, ca: CallerStep, s': State, o: Oid)
    requires CallerNext(s, t, ca, s') && !ca.ListOne? && !ca.CloseEnd? && o < |s.core.objs|
    ensures o < |s'.core.objs| && s'.core.objs[o].job.id == s.core.objs[o].job.id
    ensures Registered(s.core, o) ==> Registered(s'.core, o)
    ensures s'.core.objs[o].ver != s.core.objs[o].ver ==>
      CallerSaver(t, ca) in s'.threads && WillSave(s'.threads[CallerSaver(t, ca)], o)
  {
    if ca.SubmitOnce? {
      SubmitVersion(s, t, ca, s', o);
    } else if ca.RetryOnce? {
      RetryVersion(s, t, ca, s', o);
    }
  }

  lemma SubmitVersion(s: State, t: Tid, ca: CallerStep, s': State, o: Oid)
    requires CallerNext(s, t, ca, s') && ca.SubmitOnce? && o < |s.core.objs|
    ensures o < |s'.core.objs| && s'.core.objs[o].job.id == s.core.objs[o].job.id
    ensures Registered(s.core, o) ==> Registered(s'.core, o)
    ensures s'.core.objs[o].ver != s.core.objs[o].ver ==> ca.ch in s'.threads && WillSave(s'.threads[ca.ch], o)
  {
  }

  lemma RetryVersion(s: State, t: Tid, ca: CallerStep, s': State, o: Oid)
    requires CallerNext(s, t, ca, s') && ca.RetryOnce? && o < |s.core.objs|
    ensures o < |s'.core.objs| && s'.core.objs[o].job.id == s.core.objs[o].job.id
    ensures Registered(s.core, o) ==> Registered(s'.core, o)
    ensures s'.core.objs[o].ver != s.core.objs[o].ver ==> ca.ch in s'.threads && WillSave(s'.threads[ca.ch], o)
  {
  }

  lemma CallerThreads(s: State, t: Tid, ca: CallerStep, s': State)
    requires CallerNext(s, t, ca, s')
    ensures t in s'.threads && !s.threads[t].Storing? && KnownStay(s.threads, t, s'.threads)
  {
  }

  /** A caller writes a record only for a video without a card. */
  lemma CallerSparesRecord(s: State, t: Tid, ca: CallerStep, s': State, id: Id)
    requires CallerNext(s, t, ca, s') && id in s.core.reg
    ensures SameRecordAt(s, s', id)
  {
  }

  lemma CallerStored(s: State, t: Tid, ca: CallerStep, s': State, o: Oid)
    requires CallerNext(s, t, ca, s') && Registered(s.core, o) && o < |s'.core.objs|
    requires s'.core.objs[o].job.id == s.core.objs[o].job.id && s'.core.objs[o].ver == s.core.objs[o].ver
    ensures IsStored(s, o) ==> IsStored(s', o)
  {
    CallerSparesRecord(s, t, ca, s', s.core.objs[o].job.id);
  }

  lemma SizeIsStale(s: State, t: Tid, ca: CallerStep, s': State, o: Oid)
    requires PcsOk(s) && ShelfOk(s) && CallerNext(s, t, ca, s') && Causes(s, CallerAct(t, ca), o, SizeSeen)
    requires o !in s.shelf.gone
    ensures Stale(s', o) <==> Lonely(s, t, o)
  {
    ListVersion(s, t, ca, s', o);
    CallerThreads(s, t, ca, s');
    EditLeavesStale(s, t, s', o);
  }

  lemma CallerStale(s: State, t: Tid, ca: CallerStep, s': State, o: Oid)
    requires PcsOk(s) && ShelfOk(s) && CallerNext(s, t, ca, s')
    requires Registered(s.core, o) && o !in s.shelf.gone && !Stale(s, o)
    ensures Stale(s', o) <==> CausedBy(s, CallerAct(t, ca), o) && Lonely(s, t, o)
  {
    if Causes(s, CallerAct(t, ca), o, SizeSeen) {
      SizeIsStale(s, t, ca, s', o);
    } else {
      CallerThreads(s, t, ca, s');
      if ca.ListOne? {
        ListVersion(s, t, ca, s', o);
      } else if ca.CloseEnd? {
        CloseVersion(s, t, ca, s', o);
      } else {
        OtherVersion(s, t, ca, s', o);
      }
      if s'.core.objs[o].ver != s.core.objs[o].ver {
        SavedAnew(s', o, CallerSaver(t, ca));
      } else {
        CallerStored(s, t, ca, s', o);
        StaysFresh(s, t, s', o);
      }
    }
  }

  // ---- every step ----

  /**
    A job that is stored, or about to be, becomes stale exactly by one of the five causes, and
    only if nobody else was about to save it.
   */
  lemma BecomesStale(s: State, a: Action, s': State, o: Oid)
    requires Inv(s) && Step(s, a, s') && Registered(s.core, o) && o !in s.shelf.gone && !Stale(s, o)
    ensures Stale(s', o) <==> CausedBy(s, a, o) && Lonely(s, a.t, o)
  {
    match a
    case WorkAct(t, wk) => WorkStale(s, t, wk, s', o);
    case SaveAct(t, sv) =>
      if sv.SaveBegin? {
        SaveBeginStale(s, t, s', o);
      } else {
        SaveEndStale(s, t, sv, s', o);
      }
    case RemoveAct(t, rm) => RemoveStale(s, t, rm, s', o);
    case CallerAct(t, ca) => CallerStale(s, t, ca, s', o);
    case Call(t, q) => StaysFresh(s, t, s', o);
  }

  lemma CallerAddsStored(s: State, t: Tid, ca: CallerStep, s': State, o: Oid)
    requires CallerNext(s, t, ca, s') && |s.core.objs| <= o < |s'.core.objs|
    ensures IsStored(s', o)
  {
  }

  /** A job is stored before it is registered. */
  lemma NewIsStored(s: State, a: Action, s': State, o: Oid)
    requires Step(s, a, s') && |s.core.objs| <= o < |s'.core.objs|
    ensures IsStored(s', o)
  {
    if a.CallerAct? {
      CallerAddsStored(s, a.t, a.ca, s', o);
    }
  }

  // ---- only a save ends it ----

  lemma SaveStores(s: State, t: Tid, sv: SaveStep, s': State, o: Oid)
    requires Registered(s.core, o) && SaveNext(s, t, sv, s') && IsStored(s', o) && !IsStored(s, o)
    ensures UnderWay(s, o)
  {
    assert WritesNow(s.threads[t], o, s.core.objs[o].ver);
  }

  /** Whoever stores a job's current version was writing it: the version cannot fall back to a stored one. */
  lemma OnlyASaveStores(s: State, a: Action, s': State, o: Oid)
    requires Inv(s) && Step(s, a, s') && Registered(s.core, o) && IsStored(s', o) && !IsStored(s, o)
    ensures UnderWay(s, o)
  {
    UpToNow(s, o);
    match a
    case WorkAct(t, wk) => WorkVersion(s, t, wk, s', o);
    case SaveAct(t, sv) => SaveStores(s, t, sv, s', o);
    case RemoveAct(t, rm) =>
      RemoveVersion(s, t, rm, s', o);
      RemoveSpares(s, t, rm, s', s.core.objs[o].job.id);
    case CallerAct(t, ca) =>
      CallerVersions(s, t, ca, s', o);
      CallerKeepsId(s, t, ca, s', o);
      CallerSparesRecord(s, t, ca, s', s.core.objs[o].job.id);
    case Call(_, _) =>
  }

  lemma RemoveSpares(s: State, t: Tid, rm: RemoveStep, s': State, id: Id)
    requires RemoveNext(s, t, rm, s') && id in s'.shelf.disk
    ensures id in s.shelf.disk && s'.shelf.disk[id] == s.shelf.disk[id]
  {
  }

  lemma CallerKeepsId(s: State, t: Tid, ca: CallerStep, s': State, o: Oid)
    requires CallerNext(s, t, ca, s') && o < |s.core.objs|
    ensures o < |s'.core.objs| && s'.core.objs[o].job.id == s.core.objs[o].job.id
  {
    if ca.ListOne? {
      ListVersion(s, t, ca, s', o);
    } else if ca.CloseEnd? {
      CloseVersion(s, t, ca, s', o);
    } else {
      OtherVersion(s, t, ca, s', o);
    }
  }

  lemma StaleUntilSaved(s: State, a: Action, s': State, o: Oid)
    requires Inv(s) && Step(s, a, s') && Stale(s, o)
    requires Registered(s'.core, o) && o !in s'.shelf.gone && !UnderWay(s', o)
    ensures Stale(s', o)
  {
    if IsStored(s', o) {
      OnlyASaveStores(s, a, s', o);
    }
  }

  // ---- runs ----

  /** From state k to state i no save of o is under way. */
  ghost predicate NoSaveSince(ss: seq<State>, k: nat, i: nat, o: Oid)
    requires i < |ss|
  {
    forall m | k <= m <= i :: o < |ss[m].core.objs| && !UnderWay(ss[m], o)
  }

  ghost predicate CausedAt(ss: seq<State>, acts: seq<Action>, k: nat, o: Oid)
    requires k < |acts| && k < |ss|
  {
    CausedBy(ss[k], acts[k], o) && Lonely(ss[k], acts[k].t, o)
  }

  /** Recover edited o's record, or one of the five causes struck, and no save of o was started since. */
  ghost predicate LeftBehind(ss: seq<State>, acts: seq<Action>, i: nat, o: Oid)
    requires i < |ss| == |acts| + 1
  {
    || (o < |ss[0].core.objs| && !IsStored(ss[0], o) && NoSaveSince(ss, 0, i, o))
    || exists k :: 0 <= k < i && CausedAt(ss, acts, k, o) && NoSaveSince(ss, k + 1, i, o)
  }

  lemma OneStepBack(ss: seq<State>, acts: seq<Action>, i: nat, o: Oid)
    requires i < |acts| == |ss| - 1 && Inv(ss[i]) && Moves(ss, acts, i) && Stale(ss[i + 1], o)
    ensures Stale(ss[i], o) || CausedAt(ss, acts, i, o)
  {
    var s, s' := ss[i], ss[i + 1];
    if o >= |s.core.objs| {
      NewIsStored(s, acts[i], s', o);
    } else {
      RegisteredOnce(s, acts[i], s', o);
      GoneStays(s, acts[i], s');
      if !Stale(s, o) {
        BecomesStale(s, acts[i], s', o);
      }
    }
  }

  lemma {:induction false} StaleWasLeftBehind(ss: seq<State>, acts: seq<Action>, i: nat, o: Oid)
    requires Run(ss, acts) && i < |ss| && Stale(ss[i], o)
    ensures LeftBehind(ss, acts, i, o)
  {
    if i == 0 {
      assert NoSaveSince(ss, 0, 0, o);
    } else {
      RunStepBack(ss, acts, i - 1, o);
      if Stale(ss[i - 1], o) {
        StaleWasLeftBehind(ss, acts, i - 1, o);
        LongerAgo(ss, acts, i - 1, o);
      } else {
        JustLeft(ss, acts, i - 1, o);
      }
    }
  }

  lemma RunStepBack(ss: seq<State>, acts: seq<Action>, i: nat, o: Oid)
    requires Run(ss, acts) && i < |acts| && Stale(ss[i + 1], o)
    ensures Stale(ss[i], o) || CausedAt(ss, acts, i, o)
  {
    RunInv(ss, acts, i);
    assert Moves(ss, acts, i);
    OneStepBack(ss, acts, i, o);
  }

  lemma JustLeft(ss: seq<State>, acts: seq<Action>, i: nat, o: Oid)
    requires i < |acts| == |ss| - 1 && CausedAt(ss, acts, i, o) && Stale(ss[i + 1], o)
    ensures LeftBehind(ss, acts, i + 1, o)
  {
    assert NoSaveSince(ss, i + 1, i + 1, o);
  }

  lemma LongerAgo(ss: seq<State>, acts: seq<Action>, i: nat, o: Oid)
    requires i < |acts| == |ss| - 1 && LeftBehind(ss, acts, i, o) && Stale(ss[i + 1], o)
    ensures LeftBehind(ss, acts, i + 1, o)
  {
    if o < |ss[0].core.objs| && !IsStored(ss[0], o) && NoSaveSince(ss, 0, i, o) {
      assert NoSaveSince(ss, 0, i + 1, o);
    } else {
      var k :| 0 <= k < i && CausedAt(ss, acts, k, o) && NoSaveSince(ss, k + 1, i, o);
      assert NoSaveSince(ss, k + 1, i + 1, o);
    }
  }

  lemma StaleMoves(ss: seq<State>, acts: seq<Action>, i: nat, o: Oid)
    requires i < |acts| == |ss| - 1 && Inv(ss[i]) && Moves(ss, acts, i) && o < |ss[i].core.objs|
    requires Registered(ss[i + 1].core, o) && o !in ss[i + 1].shelf.gone && !UnderWay(ss[i + 1], o)
    ensures Registered(ss[i].core, o) && o !in ss[i].shelf.gone
    ensures Stale(ss[i], o) || CausedAt(ss, acts, i, o) ==> Stale(ss[i + 1], o)
  {
    RegisteredOnce(ss[i], acts[i], ss[i + 1], o);
    GoneStays(ss[i], acts[i], ss[i + 1]);
    if Stale(ss[i], o) {
      StaleUntilSaved(ss[i], acts[i], ss[i + 1], o);
    } else {
      BecomesStale(ss[i], acts[i], ss[i + 1], o);
    }
  }

  lemma RunStaleMoves(ss: seq<State>, acts: seq<Action>, i: nat, o: Oid)
    requires Run(ss, acts) && i < |acts| && o < |ss[i].core.objs|
    requires Registered(ss[i + 1].core, o) && o !in ss[i + 1].shelf.gone && !UnderWay(ss[i + 1], o)
    ensures Registered(ss[i].core, o) && o !in ss[i].shelf.gone
    ensures Stale(ss[i], o) || CausedAt(ss, acts, i, o) ==> Stale(ss[i + 1], o)
  {
    RunInv(ss, acts, i);
    assert Moves(ss, acts, i);
    StaleMoves(ss, acts, i, o);
  }

  /** Stale at k and not saved since: still stale at i, if the card is still there. */
  lemma {:induction false} StaleStays(ss: seq<State>, acts: seq<Action>, k: nat, i: nat, o: Oid)
    requires Run(ss, acts) && k <= i < |ss| && NoSaveSince(ss, k, i, o)
    requires Registered(ss[k].core, o) && o !in ss[k].shelf.gone ==> Stale(ss[k], o)
    requires Registered(ss[i].core, o) && o !in ss[i].shelf.gone
    ensures Stale(ss[i], o)
  {
    if i == k {
    } else {
      RunStaleMoves(ss, acts, i - 1, o);
      StaleStays(ss, acts, k, i - 1, o);
    }
  }

  lemma LeftBehindIsStale(ss: seq<State>, acts: seq<Action>, i: nat, o: Oid)
    requires Run(ss, acts) && i < |ss| && LeftBehind(ss, acts, i, o)
    requires Registered(ss[i].core, o) && o !in ss[i].shelf.gone
    ensures Stale(ss[i], o)
  {
    if o < |ss[0].core.objs| && !IsStored(ss[0], o) && NoSaveSince(ss, 0, i, o) {
      StaleStays(ss, acts, 0, i, o);
    } else {
      var k :| 0 <= k < i && CausedAt(ss, acts, k, o) && NoSaveSince(ss, k + 1, i, o);
      StaleSinceCause(ss, acts, k, i, o);
    }
  }

  lemma StaleSinceCause(ss: seq<State>, acts: seq<Action>, k: nat, i: nat, o: Oid)
    requires Run(ss, acts) && k < i < |ss| && CausedAt(ss, acts, k, o) && NoSaveSince(ss, k + 1, i, o)
    requires Registered(ss[i].core, o) && o !in ss[i].shelf.gone
    ensures Stale(ss[i], o)
  {
    CauseStrikes(ss, acts, k, o);
    StaleStays(ss, acts, k + 1, i, o);
  }

  lemma CauseStrikes(ss: seq<State>, acts: seq<Action>, k: nat, o: Oid)
    requires Run(ss, acts) && k < |acts| && CausedAt(ss, acts, k, o)
    requires o < |ss[k + 1].core.objs| && !UnderWay(ss[k + 1], o)
    ensures Registered(ss[k + 1].core, o) && o !in ss[k + 1].shelf.gone ==> Stale(ss[k + 1], o)
  {
    if Registered(ss[k + 1].core, o) && o !in ss[k + 1].shelf.gone {
      RunInv(ss, acts, k);
      CausedExists(ss[k], acts[k], o);
      RunStaleMoves(ss, acts, k, o);
    }
  }

  lemma CausedExists(s: State, a: Action, o: Oid)
    requires Inv(s) && CausedBy(s, a, o)
    ensures o < |s.core.objs|
  {
    var cause :| Causes(s, a, o, cause);
    assert a.t in s.threads && PcOk(s, s.threads[a.t]);
  }

  /**
    In every state of every run, for every registered job whose files have not been removed: its
    current version is stored, or a save of it is under way, or else, and only then, it was left behind.
   */
  lemma StoredSavingOrLeftBehind(ss: seq<State>, acts: seq<Action>, i: nat, o: Oid)
    requires Run(ss, acts) && i < |ss| && Registered(ss[i].core, o) && o !in ss[i].shelf.gone
    ensures LeftBehind(ss, acts, i, o) <==> !IsStored(ss[i], o) && !UnderWay(ss[i], o)
  {
    if LeftBehind(ss, acts, i, o) {
      LeftBehindIsStale(ss, acts, i, o);
    }
    if Stale(ss[i], o) {
      StaleWasLeftBehind(ss, acts, i, o);
    }
  }

  /** No save is waiting or writing. */
  ghost predicate NoSaves(s: State) {
    forall t | t in s.threads :: !s.threads[t].Storing?
  }

  /** When no save is under way, a card's current version is stored exactly if it was not left behind. */
  lemma QuietlyStored(ss: seq<State>, acts: seq<Action>, i: nat, o: Oid)
    requires Run(ss, acts) && i < |ss| && NoSaves(ss[i]) && Registered(ss[i].core, o) && !ss[i].core.objs[o].deleting
    ensures IsStored(ss[i], o) <==> !LeftBehind(ss, acts, i, o)
  {
    RunInv(ss, acts, i);
    ShownIsNotGone(ss[i], o);
    assert !UnderWay(ss[i], o);
    StoredSavingOrLeftBehind(ss, acts, i, o);
  }

  lemma ShownIsNotGone(s: State, o: Oid)
    requires Inv(s) && Registered(s.core, o) && !s.core.objs[o].deleting
    ensures o !in s.shelf.gone
  {
    assert RemovalOk(s.core, s.guard.fin, o);
    NotGone(s, o);
  }
}
