/** What a caller of Delete, and everybody else, can rely on over whole runs. */
module Deletion {
  import opened Model
  import opened JobCore
  import opened JobMachine
  import opened Ownership
  import opened Invariant
  import opened LockSteps
  import opened RemovalSteps
  import opened Queue
  import opened Runs

  // ---- ownership, read off the invariant ----

  /** A worker's job is the registered object of its video, and marked as its own. */
  lemma OwnedIsRegistered(ss: seq<State>, acts: seq<Action>, i: nat, t: Tid, o: Oid)
    requires Run(ss, acts) && i < |ss| && t in ss[i].threads && Own(ss[i].threads[t]) == Some(o)
    ensures Registered(ss[i].core, o) && t <= 2
    ensures if t == 0 then ss[i].core.objs[o].active else ss[i].core.objs[o].fetching
  {
    RunInv(ss, acts, i);
    assert RoleOk(t, ss[i].threads[t]);
  }

  /** At most one job is active: the download worker's. */
  lemma OneActiveJob(ss: seq<State>, acts: seq<Action>, i: nat, o: Oid, p: Oid)
    requires Run(ss, acts) && i < |ss| && o < |ss[i].core.objs| && p < |ss[i].core.objs|
    requires ss[i].core.objs[o].active && ss[i].core.objs[p].active
    ensures o == p && 0 in ss[i].threads && Own(ss[i].threads[0]) == Some(o)
  {
    RunInv(ss, acts, i);
  }

  /** The two title workers never own the same job, and every owned job is the registered one. */
  lemma OwnersAreExclusive(s: State, t: Tid, u: Tid, o: Oid)
    requires OwnershipOk(s) && t in s.threads && u in s.threads && t != u
    requires Own(s.threads[t]) == Some(o) && Own(s.threads[u]) == Some(o)
    ensures (t == 0 && 1 <= u <= 2) || (u == 0 && 1 <= t <= 2)
    ensures Registered(s.core, o) && s.core.objs[o].active && s.core.objs[o].fetching
  {
    assert RoleOk(t, s.threads[t]) && RoleOk(u, s.threads[u]);
  }

  /** While a removal touches the files no worker owns the job and nobody writes its record. */
  lemma RemoveRunsAlone(s: State, t: Tid, u: Tid)
    requires Inv(s) && t in s.threads && u in s.threads && t != u
    requires s.threads[t].Remover? && Holds(s.threads[t]).Some?
    ensures Own(s.threads[u]) != Some(s.threads[t].o)
    ensures Holds(s.threads[u]) != Some(s.threads[t].o)
    ensures s.threads[u].Remover? ==> s.threads[u].o != s.threads[t].o
  {
    var o := s.threads[t].o;
    HolderRegistered(s, t);
    HolderRegistered(s, u);
    assert RemovalOk(s.core, s.guard.fin, o);
    assert Own(s.threads[u]).Some? ==> OwnedBy(s.core, u, Own(s.threads[u]).value);
  }

  // ---- attempts are closed once, by one finalizer ----

  /** Every step but a close only adds attempts. */
  lemma AttemptsOnlyAdded(s: State, act: Action, s': State, a: Aid)
    requires Step(s, act, s') && a < |s.guard.atts| && !(act.RemoveAct? && act.rm.CloseDone?)
    ensures a < |s'.guard.atts| && s'.guard.atts[a] == s.guard.atts[a]
  {
    if act.CallerAct? {
      CallerAddsAttempts(s, act.t, act.ca, s', a);
    }
  }

  lemma CallerAddsAttempts(s: State, t: Tid, ca: CallerStep, s': State, a: Aid)
    requires CallerNext(s, t, ca, s') && a < |s.guard.atts|
    ensures a < |s'.guard.atts| && s'.guard.atts[a] == s.guard.atts[a]
  {
  }

  /** Only the closing step of the attempt's own closer completes it, and it was open. */
  lemma ClosedOnce(s: State, act: Action, s': State, a: Aid)
    requires Inv(s) && Step(s, act, s') && a < |s.guard.atts|
    ensures a < |s'.guard.atts| && s'.guard.atts[a].o == s.guard.atts[a].o
    ensures s.guard.atts[a].done ==> s'.guard.atts[a] == s.guard.atts[a]
    ensures !s.guard.atts[a].done && s'.guard.atts[a].done ==>
      act.RemoveAct? && act.t in s.threads && s.threads[act.t].Closer? && s.threads[act.t].a == a
  {
    if act.RemoveAct? && act.rm.CloseDone? {
      CloseAfter(s, act.t, s');
    } else {
      AttemptsOnlyAdded(s, act, s', a);
    }
  }

  // ---- a removed job stays removed ----

  lemma CallerKeepsGone(s: State, t: Tid, ca: CallerStep, s': State)
    requires CallerNext(s, t, ca, s')
    ensures s'.shelf.gone == s.shelf.gone
  {
  }

  lemma GoneStays(s: State, act: Action, s': State)
    requires Step(s, act, s')
    ensures s.shelf.gone <= s'.shelf.gone
  {
    if act.CallerAct? {
      CallerKeepsGone(s, act.t, act.ca, s');
    }
  }

  lemma RegisteredOnce(s: State, act: Action, s': State, o: Oid)
    requires Inv(s) && Step(s, act, s') && o < |s.core.objs|
    ensures o < |s'.core.objs| && s'.core.objs[o].job.id == s.core.objs[o].job.id
    ensures Registered(s'.core, o) ==> Registered(s.core, o)
  {
    StepQueue(s, act, s');
    if Calm(s, s') {
      assert CalmAt(s, s', o);
    }
  }

  predicate OutForGood(s: State, o: Oid) {
    o < |s.core.objs| && o in s.shelf.gone && !Registered(s.core, o)
  }

  lemma OutMove(ss: seq<State>, acts: seq<Action>, i: nat, o: Oid)
    requires i < |acts| && i + 1 < |ss| && Moves(ss, acts, i) && Inv(ss[i]) && OutForGood(ss[i], o)
    ensures OutForGood(ss[i + 1], o)
  {
    GoneStays(ss[i], acts[i], ss[i + 1]);
    RegisteredOnce(ss[i], acts[i], ss[i + 1], o);
  }

  lemma {:induction false} OutStays(ss: seq<State>, acts: seq<Action>, i: nat, j: nat, o: Oid)
    requires Run(ss, acts) && i <= j < |ss| && OutForGood(ss[i], o)
    ensures OutForGood(ss[j], o)
    decreases j - i
  {
    if i == j {
    } else {
      RunOut(ss, acts, i, o);
      OutStays(ss, acts, i + 1, j, o);
    }
  }

  lemma RunOut(ss: seq<State>, acts: seq<Action>, i: nat, o: Oid)
    requires Run(ss, acts) && i < |acts| && OutForGood(ss[i], o)
    ensures OutForGood(ss[i + 1], o)
  {
    InvariantAt(ss, acts, i);
    OutMove(ss, acts, i, o);
  }

  /**
    Delete returned nil: the files of that incarnation were removed or not there, and the job
    object is out of the registry for the rest of the run.
   */
  lemma DeleteNilMeansRemoved(ss: seq<State>, acts: seq<Action>, i: nat, j: nat, t: Tid, a: Aid)
    requires Run(ss, acts) && i <= j < |ss|
    requires t in ss[i].threads && ss[i].threads[t] == Returned(DeleteEnded(a, false))
    ensures a < |ss[i].guard.atts| && OutForGood(ss[j], ss[i].guard.atts[a].o)
  {
    RunInv(ss, acts, i);
    assert PcOk(ss[i], ss[i].threads[t]) && AttemptOk(ss[i], a);
    OutStays(ss, acts, i, j, ss[i].guard.atts[a].o);
  }

  /** Until then the card stays: an open attempt's job is registered or just leaving. */
  lemma OpenAttemptKeepsCard(s: State, a: Aid)
    requires Inv(s) && a < |s.guard.atts| && !s.guard.atts[a].done
    ensures Registered(s.core, s.guard.atts[a].o) || AboutToClose(s, s.guard.atts[a].o, a)
  {
    assert AttemptOk(s, a);
  }

  // ---- writes ----

  /**
    A record is written for a registered object whose files are there, never over another
    object's record; it is at least as new as the mutation it was started for, and current if
    the job has not changed since.
   */
  lemma SaveIsFresh(s: State, t: Tid, sv: SaveStep, s': State)
    requires Inv(s) && SaveNext(s, t, sv, s') && sv.SaveEnd? && sv.wrote
    ensures var pc := s.threads[t];
      var id := s.core.objs[pc.o].job.id;
      && Registered(s.core, pc.o) && pc.o !in s.shelf.gone
      && (id in s.shelf.disk ==> s.shelf.disk[id].owner == pc.o && s.shelf.disk[id].ver <= s'.shelf.disk[id].ver)
      && id in s'.shelf.disk && s'.shelf.disk[id].owner == pc.o && pc.base <= s'.shelf.disk[id].ver
      && (s'.shelf.disk[id].ver == s.core.objs[pc.o].ver ==> s'.shelf.disk[id].job == s.core.objs[pc.o].job)
      && (forall i | i != id :: SameRecordAt(s, s', i))
  {
    assert PcOk(s, s.threads[t]);
  }

  /** The job, its record under id, and any write of it under way are at version v or later. */
  ghost predicate AtLeast(s: State, id: Id, o: Oid, v: nat) {
    && o < |s.core.objs| && v <= s.core.objs[o].ver
    && (id in s.shelf.disk && s.shelf.disk[id].owner == o ==> v <= s.shelf.disk[id].ver)
    && (forall t | t in s.threads :: WritesAtLeast(s.threads[t], o, v))
  }

  predicate WritesAtLeast(pc: Pc, o: Oid, v: nat) {
    pc.Storing? && pc.o == o && pc.at.Writing? ==> v <= pc.at.ver
  }

  lemma StoredAtLeast(s: State, id: Id)
    requires Inv(s) && id in s.shelf.disk && id in s.core.reg
    ensures AtLeast(s, id, s.shelf.disk[id].owner, s.shelf.disk[id].ver)
  {
    assert RecordOk(s, id);
    var o := s.shelf.disk[id].owner;
    forall t | t in s.threads ensures WritesAtLeast(s.threads[t], o, s.shelf.disk[id].ver) {
      assert PcOk(s, s.threads[t]);
    }
  }

  lemma WorkAtLeast(s: State, t: Tid, wk: WorkStep, s': State, id: Id, o: Oid, v: nat)
    requires WorkNext(s, t, wk, s') && AtLeast(s, id, o, v)
    ensures AtLeast(s', id, o, v)
  {
  }

  lemma SaveAtLeast(s: State, t: Tid, sv: SaveStep, s': State, id: Id, o: Oid, v: nat)
    requires SaveNext(s, t, sv, s') && AtLeast(s, id, o, v)
    ensures AtLeast(s', id, o, v)
  {
    assert WritesAtLeast(s.threads[t], o, v);
  }

  lemma RemoveAtLeast(s: State, t: Tid, rm: RemoveStep, s': State, id: Id, o: Oid, v: nat)
    requires RemoveNext(s, t, rm, s') && AtLeast(s, id, o, v)
    ensures AtLeast(s', id, o, v)
  {
  }

  lemma CallerVersions(s: State, t: Tid, ca: CallerStep, s': State, o: Oid)
    requires CallerNext(s, t, ca, s') && o < |s.core.objs|
    ensures o < |s'.core.objs| && s.core.objs[o].ver <= s'.core.objs[o].ver
  {
    if ca.SubmitOnce? {
      SubmitVersions(s, t, ca, s', o);
    }
  }

  lemma SubmitVersions(s: State, t: Tid, ca: CallerStep, s': State, o: Oid)
    requires CallerNext(s, t, ca, s') && ca.SubmitOnce? && o < |s.core.objs|
    ensures o < |s'.core.objs| && s.core.objs[o].ver <= s'.core.objs[o].ver
  {
  }

  lemma CallerRecords(s: State, t: Tid, ca: CallerStep, s': State, id: Id)
    requires CallerNext(s, t, ca, s')
    ensures id in s'.shelf.disk ==>
      s'.shelf.disk[id].owner == |s.core.objs| || (id in s.shelf.disk && s'.shelf.disk[id] == s.shelf.disk[id])
  {
  }

  lemma CallerWrites(s: State, t: Tid, ca: CallerStep, s': State, u: Tid)
    requires CallerNext(s, t, ca, s') && u in s'.threads && s'.threads[u].Storing? && s'.threads[u].at.Writing?
    ensures u in s.threads && s.threads[u] == s'.threads[u]
  {
    if ca.SubmitOnce? {
      SubmitWrites(s, t, ca, s', u);
    }
  }

  lemma SubmitWrites(s: State, t: Tid, ca: CallerStep, s': State, u: Tid)
    requires CallerNext(s, t, ca, s') && ca.SubmitOnce? && u in s'.threads
    requires s'.threads[u].Storing? && s'.threads[u].at.Writing?
    ensures u in s.threads && s.threads[u] == s'.threads[u]
  {
  }

  lemma CallerAtLeast(s: State, t: Tid, ca: CallerStep, s': State, id: Id, o: Oid, v: nat)
    requires CallerNext(s, t, ca, s') && AtLeast(s, id, o, v)
    ensures AtLeast(s', id, o, v)
  {
    CallerVersions(s, t, ca, s', o);
    CallerRecords(s, t, ca, s', id);
    forall u | u in s'.threads ensures WritesAtLeast(s'.threads[u], o, v) {
      if s'.threads[u].Storing? && s'.threads[u].at.Writing? {
        CallerWrites(s, t, ca, s', u);
      }
    }
  }

  lemma MoveAtLeast(ss: seq<State>, acts: seq<Action>, i: nat, id: Id, o: Oid, v: nat)
    requires i < |acts| && i + 1 < |ss| && Moves(ss, acts, i) && AtLeast(ss[i], id, o, v)
    ensures AtLeast(ss[i + 1], id, o, v)
  {
    match acts[i]
    case WorkAct(t, wk) => WorkAtLeast(ss[i], t, wk, ss[i + 1], id, o, v);
    case SaveAct(t, sv) => SaveAtLeast(ss[i], t, sv, ss[i + 1], id, o, v);
    case RemoveAct(t, rm) => RemoveAtLeast(ss[i], t, rm, ss[i + 1], id, o, v);
    case CallerAct(t, ca) => CallerAtLeast(ss[i], t, ca, ss[i + 1], id, o, v);
    case Call(_, _) =>
  }

  lemma {:induction false} AtLeastStays(ss: seq<State>, acts: seq<Action>, i: nat, j: nat, id: Id, o: Oid, v: nat)
    requires Run(ss, acts) && i <= j < |ss| && AtLeast(ss[i], id, o, v)
    ensures AtLeast(ss[j], id, o, v)
  {
    if i == j {
    } else {
      AtLeastStays(ss, acts, i, j - 1, id, o, v);
      MoveAtLeast(ss, acts, j - 1, id, o, v);
    }
  }

  /**
    Over any stretch of a run, with the record replaced, lost and written again in between: what
    is stored of one job later is never an older version of it.
   */
  lemma RecordsNeverGetOlder(ss: seq<State>, acts: seq<Action>, i: nat, j: nat, id: Id)
    requires Run(ss, acts) && i <= j < |ss|
    requires id in ss[i].shelf.disk && id in ss[i].core.reg && id in ss[j].shelf.disk
    requires ss[j].shelf.disk[id].owner == ss[i].shelf.disk[id].owner
    ensures ss[i].shelf.disk[id].ver <= ss[j].shelf.disk[id].ver
  {
    RunInv(ss, acts, i);
    StoredAtLeast(ss[i], id);
    AtLeastStays(ss, acts, i, j, id, ss[i].shelf.disk[id].owner, ss[i].shelf.disk[id].ver);
  }

  predicate SameRecordAt(s: State, s': State, id: Id) {
    && (id in s'.shelf.disk <==> id in s.shelf.disk)
    && (id in s.shelf.disk ==> s'.shelf.disk[id] == s.shelf.disk[id])
  }

  lemma SaveSparesUnregistered(s: State, t: Tid, sv: SaveStep, s': State, id: Id)
    requires Inv(s) && SaveNext(s, t, sv, s') && id !in s.core.reg
    ensures SameRecordAt(s, s', id)
  {
    assert PcOk(s, s.threads[t]);
  }

  /** Nobody but a Submit of that very video writes a record for a video that has no card. */
  lemma OnlySubmitWritesUnregistered(s: State, act: Action, s': State, id: Id)
    requires Inv(s) && Step(s, act, s') && id !in s.core.reg
    ensures SameRecordAt(s, s', id) || id !in s'.shelf.disk
            || (act.CallerAct? && act.ca.SubmitOnce? && act.t in s.threads &&
              s.threads[act.t] == Client(Submitting(id)))
  {
    match act
    case SaveAct(t, sv) => SaveSparesUnregistered(s, t, sv, s', id);
    case CallerAct(t, ca) => CallerSparesUnregistered(s, t, ca, s', id);
    case _ =>
  }

  lemma CallerSparesUnregistered(s: State, t: Tid, ca: CallerStep, s': State, id: Id)
    requires CallerNext(s, t, ca, s')
    ensures SameRecordAt(s, s', id) || (ca.SubmitOnce? && s.threads[t] == Client(Submitting(id)))
  {
  }
}
