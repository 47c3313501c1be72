/**
  From versions to contents: what a stored record says about its job. Versions count changes, so
  a record holds what the job was at the record's version, and a record one change behind differs.
 */
module Contents {
  import opened Model
  import opened JobCore
  import opened JobMachine
  import opened Invariant
  import opened Runs
  import opened Deletion
  import opened Staleness

  // ---- every edit is a change ----

  /** A step leaves a job alone or changes it, one version up. */
  predicate Changed(s: State, s': State, o: Oid) {
    o < |s.core.objs| && o < |s'.core.objs| &&
    var r, r' := s.core.objs[o], s'.core.objs[o];
    r'.job.id == r.job.id && (if r'.job == r.job then r'.ver == r.ver else r'.ver == r.ver + 1)
  }

  lemma WorkChanges(s: State, t: Tid, wk: WorkStep, s': State, o: Oid)
    requires WorkNext(s, t, wk, s') && o < |s.core.objs|
    ensures Changed(s, s', o)
  {
  }

  lemma RemoveChanges(s: State, t: Tid, rm: RemoveStep, s': State, o: Oid)
    requires RemoveNext(s, t, rm, s') && o < |s.core.objs|
    ensures Changed(s, s', o)
  {
  }

  lemma CallerChanges(s: State, t: Tid, ca: CallerStep, s': State, o: Oid)
    requires CallerNext(s, t, ca, s') && o < |s.core.objs|
    ensures Changed(s, s', o)
  {
    if ca.SubmitOnce? {
      SubmitChanges(s, t, ca, s', o);
    }
  }

  lemma SubmitChanges(s: State, t: Tid, ca: CallerStep, s': State, o: Oid)
    requires CallerNext(s, t, ca, s') && ca.SubmitOnce? && o < |s.core.objs|
    ensures Changed(s, s', o)
  {
  }

  lemma StepChanges(s: State, a: Action, s': State, o: Oid)
    requires Step(s, a, s') && o < |s.core.objs|
    ensures Changed(s, s', o)
  {
    match a
    case WorkAct(t, wk) => WorkChanges(s, t, wk, s', o);
    case SaveAct(_, _) =>
    case RemoveAct(t, rm) => RemoveChanges(s, t, rm, s', o);
    case CallerAct(t, ca) => CallerChanges(s, t, ca, s', o);
    case Call(_, _) =>
  }

  // ---- who writes what ----

  /** A write of o that was under way before the step, or begins with it at o's current version. */
  lemma WritesComeFrom(s: State, a: Action, s': State, u: Tid)
    requires Step(s, a, s') && u in s'.threads && s'.threads[u].Storing? && s'.threads[u].at.Writing?
    ensures var pc' := s'.threads[u];
      || (u in s.threads && s.threads[u] == pc')
      || (pc'.o < |s.core.objs| && s'.core == s.core
          && pc'.at == Writing(s.core.objs[pc'.o].job, s.core.objs[pc'.o].ver))
  {
    if a.CallerAct? {
      CallerWrites(s, a.t, a.ca, s', u);
    }
  }

  /** The record under id was there before the step, was written by it, or is a new Submit's. */
  lemma RecordsComeFrom(s: State, a: Action, s': State, id: Id)
    requires Step(s, a, s') && id in s'.shelf.disk
    ensures var rec := s'.shelf.disk[id];
      || (id in s.shelf.disk && s.shelf.disk[id] == rec)
      || (a.SaveAct? && a.t in s.threads && s.threads[a.t].Storing? && s.threads[a.t].at.Writing?
          && rec == Stored(s.threads[a.t].o, s.threads[a.t].at.ver, s.threads[a.t].at.snap)
          && s'.core == s.core && id == rec.job.id)
      || rec.owner == |s.core.objs|
  {
    if a.CallerAct? {
      CallerRecords(s, a.t, a.ca, s', id);
    }
  }

  // ---- one change behind ----

  /** A write that is one change behind its job writes something else. */
  predicate WriteApart(s: State, pc: Pc) {
    pc.Storing? && pc.at.Writing? && pc.o < |s.core.objs| && pc.at.ver + 1 == s.core.objs[pc.o].ver ==>
      pc.at.snap != s.core.objs[pc.o].job
  }

  ghost predicate AllApart(s: State) {
    && (forall o: Oid | Registered(s.core, o) :: RecordApart(s, o))
    && (forall t | t in s.threads :: WriteApart(s, s.threads[t]))
  }

  lemma WriteStaysApart(s: State, a: Action, s': State, u: Tid)
    requires PcsOk(s) && Step(s, a, s') && u in s'.threads && forall t | t in s.threads :: WriteApart(s, s.threads[t])
    ensures WriteApart(s', s'.threads[u])
  {
    var pc' := s'.threads[u];
    if pc'.Storing? && pc'.at.Writing? {
      WritesComeFrom(s, a, s', u);
      if u in s.threads && s.threads[u] == pc' {
        assert PcOk(s, pc') && WriteApart(s, pc');
        StepChanges(s, a, s', pc'.o);
      }
    }
  }

  lemma NewRecordApart(s: State, a: Action, s': State, o: Oid)
    requires Step(s, a, s') && |s.core.objs| <= o < |s'.core.objs|
    ensures RecordApart(s', o)
  {
    NewIsStored(s, a, s', o);
  }

  lemma RecordStaysApart(s: State, a: Action, s': State, o: Oid)
    requires Inv(s) && AllApart(s) && Step(s, a, s') && o < |s.core.objs|
    requires Registered(s.core, o)
    ensures RecordApart(s', o)
  {
    StepChanges(s, a, s', o);
    var id := s.core.objs[o].job.id;
    if id in s'.shelf.disk && s'.shelf.disk[id].owner == o {
      RecordsComeFrom(s, a, s', id);
      if id in s.shelf.disk && s.shelf.disk[id] == s'.shelf.disk[id] {
        assert RecordOk(s, id);
        KeptRecordApart(s, s', o);
      } else {
        assert WriteApart(s, s.threads[a.t]);
        WrittenRecordApart(s, s.threads[a.t], s', o);
      }
    }
  }

  lemma KeptRecordApart(s: State, s': State, o: Oid)
    requires Changed(s, s', o) && Registered(s.core, o) && RecordApart(s, o)
    requires var id := s.core.objs[o].job.id;
      id in s.shelf.disk && RecordOk(s, id) && id in s'.shelf.disk && s'.shelf.disk[id] == s.shelf.disk[id]
    ensures RecordApart(s', o)
  {
  }

  lemma WrittenRecordApart(s: State, pc: Pc, s': State, o: Oid)
    requires WriteApart(s, pc) && pc.Storing? && pc.at.Writing? && pc.o == o < |s.core.objs| && s'.core == s.core
    requires var id := s.core.objs[o].job.id;
      id in s'.shelf.disk && s'.shelf.disk[id] == Stored(o, pc.at.ver, pc.at.snap)
    ensures RecordApart(s', o)
  {
  }

  lemma ApartMoves(s: State, a: Action, s': State)
    requires Inv(s) && AllApart(s) && Step(s, a, s')
    ensures AllApart(s')
  {
    forall o: Oid | Registered(s'.core, o) ensures RecordApart(s', o) {
      if o < |s.core.objs| {
        RegisteredOnce(s, a, s', o);
        RecordStaysApart(s, a, s', o);
      } else {
        NewRecordApart(s, a, s', o);
      }
    }
    forall u | u in s'.threads ensures WriteApart(s', s'.threads[u]) {
      WriteStaysApart(s, a, s', u);
    }
  }

  lemma RunApartMoves(ss: seq<State>, acts: seq<Action>, i: nat)
    requires Run(ss, acts) && i < |acts| && AllApart(ss[i])
    ensures AllApart(ss[i + 1])
  {
    RunInv(ss, acts, i);
    assert Moves(ss, acts, i);
    ApartMoves(ss[i], acts[i], ss[i + 1]);
  }

  lemma {:induction false} RunApart(ss: seq<State>, acts: seq<Action>, i: nat)
    requires Run(ss, acts) && i < |ss|
    ensures AllApart(ss[i])
  {
    if i == 0 {
    } else {
      RunApart(ss, acts, i - 1);
      RunApartMoves(ss, acts, i - 1);
    }
  }

  // ---- a record holds what the job was at its version ----

  predicate WritesAs(pc: Pc, o: Oid, ver: nat, job: Job) {
    pc.Storing? && pc.o == o && pc.at.Writing? && pc.at.ver == ver ==> pc.at.snap == job
  }

  /** Version ver of object o, wherever it is still to be found, is this job. */
  ghost predicate VersionIs(s: State, id: Id, o: Oid, ver: nat, job: Job) {
    && o < |s.core.objs| && ver <= s.core.objs[o].ver && (s.core.objs[o].ver == ver ==> s.core.objs[o].job == job)
    && (id in s.shelf.disk && s.shelf.disk[id].owner == o && s.shelf.disk[id].ver == ver ==>
          s.shelf.disk[id].job == job)
    && (forall t | t in s.threads :: WritesAs(s.threads[t], o, ver, job))
  }

  lemma VersionNow(s: State, o: Oid)
    requires Inv(s) && Registered(s.core, o)
    ensures VersionIs(s, s.core.objs[o].job.id, o, s.core.objs[o].ver, s.core.objs[o].job)
  {
    var id := s.core.objs[o].job.id;
    assert id in s.shelf.disk ==> RecordOk(s, id);
    forall t | t in s.threads ensures WritesAs(s.threads[t], o, s.core.objs[o].ver, s.core.objs[o].job) {
      assert PcOk(s, s.threads[t]);
    }
  }

  lemma VersionMoves(s: State, a: Action, s': State, id: Id, o: Oid, ver: nat, job: Job)
    requires Step(s, a, s') && VersionIs(s, id, o, ver, job)
    ensures VersionIs(s', id, o, ver, job)
  {
    StepChanges(s, a, s', o);
    if id in s'.shelf.disk {
      RecordsComeFrom(s, a, s', id);
      assert a.t in s.threads ==> WritesAs(s.threads[a.t], o, ver, job);
    }
    forall u | u in s'.threads ensures WritesAs(s'.threads[u], o, ver, job) {
      if s'.threads[u].Storing? && s'.threads[u].at.Writing? {
        WritesComeFrom(s, a, s', u);
        assert u in s.threads ==> WritesAs(s.threads[u], o, ver, job);
      }
    }
  }

  lemma {:induction false} VersionStays(ss: seq<State>, acts: seq<Action>, m: nat, i: nat, id: Id, o: Oid, ver: nat,
      job: Job)
    requires Run(ss, acts) && m <= i < |ss| && VersionIs(ss[m], id, o, ver, job)
    ensures VersionIs(ss[i], id, o, ver, job)
  {
    if i == m {
    } else {
      VersionStays(ss, acts, m, i - 1, id, o, ver, job);
      RunVersionMoves(ss, acts, i - 1, id, o, ver, job);
    }
  }

  lemma RunVersionMoves(ss: seq<State>, acts: seq<Action>, i: nat, id: Id, o: Oid, ver: nat, job: Job)
    requires Run(ss, acts) && i < |acts| && VersionIs(ss[i], id, o, ver, job)
    ensures VersionIs(ss[i + 1], id, o, ver, job)
  {
    assert Moves(ss, acts, i);
    VersionMoves(ss[i], acts[i], ss[i + 1], id, o, ver, job);
  }

  /** What is stored of a job is what the job was when it was at the record's version. */
  lemma RecordIsPast(ss: seq<State>, acts: seq<Action>, m: nat, i: nat, o: Oid)
    requires Run(ss, acts) && m <= i < |ss| && Registered(ss[m].core, o)
    requires var id := ss[m].core.objs[o].job.id;
      id in ss[i].shelf.disk && ss[i].shelf.disk[id].owner == o && ss[i].shelf.disk[id].ver == ss[m].core.objs[o].ver
    ensures ss[i].shelf.disk[ss[m].core.objs[o].job.id].job == ss[m].core.objs[o].job
  {
    var r := ss[m].core.objs[o];
    RunInv(ss, acts, m);
    VersionNow(ss[m], o);
    VersionStays(ss, acts, m, i, r.job.id, o, r.ver, r.job);
  }

  // ---- the store and memory, when no save is under way ----

  /** How many changes of the job the store does not have; None if it has no record. */
  function Unsaved(s: State, o: Oid): Option<int>
    requires o < |s.core.objs|
  {
    var id := s.core.objs[o].job.id;
    if id in s.shelf.disk then Some(s.core.objs[o].ver - s.shelf.disk[id].ver) else None
  }

  lemma UnsavedSays(s: State, o: Oid)
    requires Inv(s) && AllApart(s) && Registered(s.core, o)
    ensures var id, u := s.core.objs[o].job.id, Unsaved(s, o);
      && (IsStored(s, o) <==> u == Some(0))
      && (u.Some? ==> u.value >= 0)
      && (u == Some(0) ==> s.shelf.disk[id].job == s.core.objs[o].job)
      && (u == Some(1) ==> s.shelf.disk[id].job != s.core.objs[o].job)
  {
    var id := s.core.objs[o].job.id;
    assert RecordApart(s, o);
    assert id in s.shelf.disk ==> RecordOk(s, id);
  }

  /**
    When no save is under way: a card that was not left behind is stored as it is. One that was
    left behind has no record, or one that lacks at least one change; lacking one change it
    differs from the card, so the two can only agree again when later changes undo each other.
   */
  lemma DiskEqualsMemory(ss: seq<State>, acts: seq<Action>, i: nat, o: Oid)
    requires Run(ss, acts) && i < |ss| && NoSaves(ss[i]) && Registered(ss[i].core, o) && !ss[i].core.objs[o].deleting
    ensures var s, id, u := ss[i], ss[i].core.objs[o].job.id, Unsaved(ss[i], o);
      && (!LeftBehind(ss, acts, i, o) ==> id in s.shelf.disk && s.shelf.disk[id].job == s.core.objs[o].job)
      && (LeftBehind(ss, acts, i, o) ==> u.None? || u.value > 0)
      && (LeftBehind(ss, acts, i, o) && u.Some? && s.shelf.disk[id].job == s.core.objs[o].job ==> u.value > 1)
  {
    QuietlyStored(ss, acts, i, o);
    RunInv(ss, acts, i);
    RunApart(ss, acts, i);
    UnsavedSays(ss[i], o);
  }

  /**
    Exactly when they agree all the same: the card is again what it was, at whatever earlier
    moment of the run it had the record's version.
   */
  lemma AgreeIfUndone(ss: seq<State>, acts: seq<Action>, m: nat, i: nat, o: Oid)
    requires Run(ss, acts) && m <= i < |ss| && Registered(ss[m].core, o) && Registered(ss[i].core, o)
    requires var id := ss[i].core.objs[o].job.id;
      id in ss[i].shelf.disk && ss[i].shelf.disk[id].ver == ss[m].core.objs[o].ver
    ensures ss[i].shelf.disk[ss[i].core.objs[o].job.id].job == ss[i].core.objs[o].job <==>
      ss[m].core.objs[o].job == ss[i].core.objs[o].job
  {
    SameVideo(ss, acts, m, i, o);
    RunInv(ss, acts, i);
    OwnRecord(ss[i], o);
    RecordIsPast(ss, acts, m, i, o);
  }

  lemma OwnRecord(s: State, o: Oid)
    requires Inv(s) && Registered(s.core, o)
    ensures s.core.objs[o].job.id in s.shelf.disk ==> s.shelf.disk[s.core.objs[o].job.id].owner == o
  {
    assert s.core.objs[o].job.id in s.shelf.disk ==> RecordOk(s, s.core.objs[o].job.id);
  }

  lemma {:induction false} SameVideo(ss: seq<State>, acts: seq<Action>, m: nat, i: nat, o: Oid)
    requires Run(ss, acts) && m <= i < |ss| && o < |ss[m].core.objs|
    ensures o < |ss[i].core.objs| && ss[i].core.objs[o].job.id == ss[m].core.objs[o].job.id
  {
    if i == m {
    } else {
      SameVideo(ss, acts, m, i - 1, o);
      RunChanges(ss, acts, i - 1, o);
    }
  }

  lemma RunChanges(ss: seq<State>, acts: seq<Action>, i: nat, o: Oid)
    requires Run(ss, acts) && i < |acts| && o < |ss[i].core.objs|
    ensures Changed(ss[i], ss[i + 1], o)
  {
    assert Moves(ss, acts, i);
    StepChanges(ss[i], acts[i], ss[i + 1], o);
  }
}
