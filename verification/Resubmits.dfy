/** After a deletion, whatever is stored of the video was written by a Submit made later. */
module Resubmits {
  import opened Model
  import opened JobCore
  import opened JobMachine
  import opened Invariant
  import opened Runs
  import opened Deletion
  import opened Leftovers
  import opened Contents

  // ---- objects and the Submits that register them ----

  lemma CallerAdmits(s: State, t: Tid, ca: CallerStep, s': State)
    requires CallerNext(s, t, ca, s') && |s'.core.objs| > |s.core.objs|
    ensures Admits(s, CallerAct(t, ca), s'.core.objs[|s.core.objs|].job.id) && |s'.core.objs| == |s.core.objs| + 1
  {
  }

  lemma StepAdmits(s: State, a: Action, s': State)
    requires Step(s, a, s') && |s'.core.objs| > |s.core.objs|
    ensures Admits(s, a, s'.core.objs[|s.core.objs|].job.id) && |s'.core.objs| == |s.core.objs| + 1
  {
    if a.CallerAct? {
      CallerAdmits(s, a.t, a.ca, s');
    }
  }

  /** Step k is the Submit that registers object o, for video id. */
  ghost predicate AdmittedAt(ss: seq<State>, acts: seq<Action>, k: nat, o: Oid, id: Id)
    requires k < |acts| && k < |ss|
  {
    |ss[k].core.objs| == o && Admits(ss[k], acts[k], id)
  }

  lemma AdmittedNow(ss: seq<State>, acts: seq<Action>, k: nat)
    requires Run(ss, acts) && k < |acts| && |ss[k + 1].core.objs| > |ss[k].core.objs|
    ensures |ss[k + 1].core.objs| == |ss[k].core.objs| + 1
    ensures AdmittedAt(ss, acts, k, |ss[k].core.objs|, ss[k + 1].core.objs[|ss[k].core.objs|].job.id)
  {
    assert Moves(ss, acts, k);
    StepAdmits(ss[k], acts[k], ss[k + 1]);
  }

  lemma {:induction false} AdmittedOnce(ss: seq<State>, acts: seq<Action>, i: nat, j: nat, o: Oid) returns (k: nat)
    requires Run(ss, acts) && i <= j < |ss| && |ss[i].core.objs| <= o < |ss[j].core.objs|
    ensures i <= k < j && AdmittedAt(ss, acts, k, o, ss[j].core.objs[o].job.id)
    decreases j
  {
    if o < |ss[j - 1].core.objs| {
      k := AdmittedOnce(ss, acts, i, j - 1, o);
      SameVideo(ss, acts, j - 1, j, o);
    } else {
      k := j - 1;
      AdmittedNow(ss, acts, k);
    }
  }

  lemma UnregisteredMoves(ss: seq<State>, acts: seq<Action>, i: nat, o: Oid)
    requires Run(ss, acts) && i < |acts| && o < |ss[i].core.objs| && !Registered(ss[i].core, o)
    ensures o < |ss[i + 1].core.objs| && !Registered(ss[i + 1].core, o)
  {
    RunInv(ss, acts, i);
    assert Moves(ss, acts, i);
    RegisteredOnce(ss[i], acts[i], ss[i + 1], o);
  }

  lemma {:induction false} StaysUnregistered(ss: seq<State>, acts: seq<Action>, i: nat, j: nat, o: Oid)
    requires Run(ss, acts) && i <= j < |ss| && o < |ss[i].core.objs| && !Registered(ss[i].core, o)
    ensures o < |ss[j].core.objs| && !Registered(ss[j].core, o)
    decreases j - i
  {
    if i == j {
    } else {
      UnregisteredMoves(ss, acts, i, o);
      StaysUnregistered(ss, acts, i + 1, j, o);
    }
  }

  // ---- a video's registered object is its newest ----

  /** A Submit that registers a job for id or leaves a record under it. */
  predicate SubmitStores(s: State, a: Action, id: Id) {
    Admits(s, a, id) || LeavesRecord(s, a, id)
  }

  /** At such a step every object of that video is out. */
  lemma OutAtSubmit(ss: seq<State>, acts: seq<Action>, k: nat, j: nat, o: Oid, id: Id)
    requires Run(ss, acts) && k <= j < |ss| && k < |acts| && o < |ss[k].core.objs| && SubmitStores(ss[k], acts[k], id)
    requires o < |ss[j].core.objs| && ss[j].core.objs[o].job.id == id
    ensures !Registered(ss[k].core, o)
  {
    SameVideo(ss, acts, k, j, o);
  }

  lemma OlderIsOut(ss: seq<State>, acts: seq<Action>, j: nat, o: Oid, p: Oid)
    requires Run(ss, acts) && j < |ss| && p < o < |ss[j].core.objs| && |ss[0].core.objs| <= o
    requires ss[j].core.objs[o].job.id == ss[j].core.objs[p].job.id
    ensures !Registered(ss[j].core, p)
  {
    var k := AdmittedOnce(ss, acts, 0, j, o);
    OutAtSubmit(ss, acts, k, j, p, ss[j].core.objs[o].job.id);
    StaysUnregistered(ss, acts, k, j, p);
  }

  lemma FirstAreApart(ss: seq<State>, acts: seq<Action>, j: nat, o: Oid, p: Oid)
    requires Run(ss, acts) && j < |ss| && o < |ss[j].core.objs| && p < |ss[j].core.objs|
    requires o < |ss[0].core.objs| && p < |ss[0].core.objs| && ss[j].core.objs[o].job.id == ss[j].core.objs[p].job.id
    ensures o == p
  {
    SameVideo(ss, acts, 0, j, o);
    SameVideo(ss, acts, 0, j, p);
    assert Registered(ss[0].core, o) && Registered(ss[0].core, p);
  }

  lemma NewestIsRegistered(ss: seq<State>, acts: seq<Action>, j: nat, o: Oid, p: Oid)
    requires Run(ss, acts) && j < |ss| && o < |ss[j].core.objs| && Registered(ss[j].core, p) && p != o
    requires ss[j].core.objs[o].job.id == ss[j].core.objs[p].job.id
    ensures o < p && |ss[0].core.objs| <= p
  {
    if p < o && |ss[0].core.objs| <= o {
      OlderIsOut(ss, acts, j, o, p);
    } else if o < |ss[0].core.objs| && p < |ss[0].core.objs| {
      FirstAreApart(ss, acts, j, o, p);
    }
  }

  // ---- what is stored after a deletion ----

  /**
    Step k is a Submit of id made when object o was out, and what is stored under id at step j is
    the record of the job it registered, or a leftover, like the one it left.
   */
  ghost predicate WrittenAt(ss: seq<State>, acts: seq<Action>, k: nat, j: nat, o: Oid, id: Id)
    requires k < |acts| && k < |ss| && j < |ss|
  {
    && o < |ss[k].core.objs| && !Registered(ss[k].core, o) && id in ss[j].shelf.disk
    && if id in ss[j].shelf.leftover then LeavesRecord(ss[k], acts[k], id)
       else AdmittedAt(ss, acts, k, ss[j].shelf.disk[id].owner, id)
  }

  lemma LeftoverIsLater(ss: seq<State>, acts: seq<Action>, j: nat, o: Oid, id: Id) returns (k: nat)
    requires Run(ss, acts) && j < |ss| && o < |ss[j].core.objs| && ss[j].core.objs[o].job.id == id
    requires id in ss[j].shelf.leftover && id in ss[j].shelf.disk
    ensures k < j && WrittenAt(ss, acts, k, j, o, id)
  {
    LeftoverHistory(ss, acts, j, id);
    k :| 0 <= k < j && LeavesRecord(ss[k], acts[k], id) && NoneAdmits(ss, acts, k + 1, j, id);
    WasThere(ss, acts, k, j, o, id);
    OutAtSubmit(ss, acts, k, j, o, id);
  }

  /** An object of the video was there before a Submit that no later one follows. */
  lemma WasThere(ss: seq<State>, acts: seq<Action>, k: nat, j: nat, o: Oid, id: Id)
    requires Run(ss, acts) && k < j < |ss| && o < |ss[j].core.objs| && ss[j].core.objs[o].job.id == id
    requires LeavesRecord(ss[k], acts[k], id) && NoneAdmits(ss, acts, k + 1, j, id)
    ensures o < |ss[k].core.objs|
  {
    if |ss[k].core.objs| <= o {
      var m := AdmittedOnce(ss, acts, k, j, o);
    }
  }

  /**
    Delete answered nil for object o. Any record of that video in any later state was written by
    a Submit made after o had left the registry: it belongs to the job this Submit registered, or
    it is what the Submit left behind when it failed.
   */
  lemma StoredAfterDelete(ss: seq<State>, acts: seq<Action>, i: nat, j: nat, t: Tid, a: Aid, id: Id) returns (k: nat)
    requires Run(ss, acts) && i <= j < |ss| && t in ss[i].threads && a < |ss[i].guard.atts|
    requires ss[i].threads[t] == Returned(DeleteEnded(a, false))
    requires var o := ss[i].guard.atts[a].o; o < |ss[i].core.objs| && ss[i].core.objs[o].job.id == id
    requires id in ss[j].shelf.disk
    ensures k < j && WrittenAt(ss, acts, k, j, ss[i].guard.atts[a].o, id)
  {
    var o := ss[i].guard.atts[a].o;
    DeleteNilMeansRemoved(ss, acts, i, j, t, a);
    SameVideo(ss, acts, i, j, o);
    NoResurrection(ss, acts, j);
    if id in ss[j].shelf.leftover {
      k := LeftoverIsLater(ss, acts, j, o, id);
    } else {
      assert id !in ss[j].shelf.disk.Keys - ss[j].core.reg.Keys;
      k := RecordIsLater(ss, acts, j, o, id);
    }
  }

  lemma RecordIsLater(ss: seq<State>, acts: seq<Action>, j: nat, o: Oid, id: Id) returns (k: nat)
    requires Run(ss, acts) && j < |ss| && o < |ss[j].core.objs| && ss[j].core.objs[o].job.id == id
    requires !Registered(ss[j].core, o) && id in ss[j].core.reg && id in ss[j].shelf.disk
    ensures k < j && WrittenAt(ss, acts, k, j, o, id)
  {
    var p := RecordOwner(ss, acts, j, id);
    NewestIsRegistered(ss, acts, j, o, p);
    k := AdmittedOnce(ss, acts, 0, j, p);
    OutAtSubmit(ss, acts, k, j, o, id);
  }

  lemma RecordOwner(ss: seq<State>, acts: seq<Action>, j: nat, id: Id) returns (p: Oid)
    requires Run(ss, acts) && j < |ss| && id in ss[j].core.reg && id in ss[j].shelf.disk
    ensures Registered(ss[j].core, p) && ss[j].core.objs[p].job.id == id
    ensures ss[j].shelf.disk[id].owner == p && id !in ss[j].shelf.leftover
  {
    RunInv(ss, acts, j);
    assert RecordOk(ss[j], id);
    p := ss[j].core.reg[id];
  }
}
