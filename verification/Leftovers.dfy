/**
  The one way a record can outlive or precede its card: store.Save wrote a new job's record and
  failed all the same, so that Submit answered ErrStorage and registered nothing.
 */
module Leftovers {
  import opened Model
  import opened JobCore
  import opened JobMachine
  import opened Runs

  /** What Submit's next pass would answer, if t is a Submit of id. */
  predicate Submits(s: State, a: Action, id: Id) {
    a.CallerAct? && a.ca.SubmitOnce? && a.t in s.threads && s.threads[a.t] == Client(Submitting(id)) && RegOk(s.core)
  }

  /** A Submit of id whose Save failed after it had written the record. */
  predicate LeavesRecord(s: State, a: Action, id: Id) {
    Submits(s, a, id) && a.ca.wrote && Submit(s.core, id, a.ca.now, a.ca.ok).1.SubmitStorage?
  }

  /** A Submit that registers a new job for id. */
  predicate Admits(s: State, a: Action, id: Id) {
    Submits(s, a, id) && Submit(s.core, id, a.ca.now, a.ca.ok).1.SubmitNew?
  }

  lemma CallerLeftover(s: State, t: Tid, ca: CallerStep, s': State, id: Id)
    requires CallerNext(s, t, ca, s')
    ensures id in s'.shelf.leftover <==>
      LeavesRecord(s, CallerAct(t, ca), id) || (id in s.shelf.leftover && !Admits(s, CallerAct(t, ca), id))
  {
  }

  lemma StepLeftover(s: State, a: Action, s': State, id: Id)
    requires Step(s, a, s')
    ensures id in s'.shelf.leftover <==> LeavesRecord(s, a, id) || (id in s.shelf.leftover && !Admits(s, a, id))
  {
    if a.CallerAct? {
      CallerLeftover(s, a.t, a.ca, s', id);
    }
  }

  /** Some earlier Submit of id left a record, and no Submit of id has registered a job since. */
  ghost predicate LeftSince(ss: seq<State>, acts: seq<Action>, i: nat, id: Id)
    requires i <= |acts| < |ss|
  {
    exists k :: 0 <= k < i && LeavesRecord(ss[k], acts[k], id) && NoneAdmits(ss, acts, k + 1, i, id)
  }

  ghost predicate NoneAdmits(ss: seq<State>, acts: seq<Action>, from: nat, to: nat, id: Id)
    requires to <= |acts| < |ss|
  {
    forall m | from <= m < to :: !Admits(ss[m], acts[m], id)
  }

  lemma LeftOneMore(ss: seq<State>, acts: seq<Action>, i: nat, id: Id)
    requires i < |acts| < |ss|
    ensures LeftSince(ss, acts, i + 1, id) <==>
      LeavesRecord(ss[i], acts[i], id) || (LeftSince(ss, acts, i, id) && !Admits(ss[i], acts[i], id))
  {
    if LeavesRecord(ss[i], acts[i], id) {
      assert NoneAdmits(ss, acts, i + 1, i + 1, id);
    } else if LeftSince(ss, acts, i, id) && !Admits(ss[i], acts[i], id) {
      var k :| 0 <= k < i && LeavesRecord(ss[k], acts[k], id) && NoneAdmits(ss, acts, k + 1, i, id);
      assert NoneAdmits(ss, acts, k + 1, i + 1, id);
    }
    if LeftSince(ss, acts, i + 1, id) && !LeavesRecord(ss[i], acts[i], id) {
      var k :| 0 <= k < i + 1 && LeavesRecord(ss[k], acts[k], id) && NoneAdmits(ss, acts, k + 1, i + 1, id);
      assert k < i && NoneAdmits(ss, acts, k + 1, i, id);
    }
  }

  lemma {:induction false} LeftoverHistory(ss: seq<State>, acts: seq<Action>, i: nat, id: Id)
    requires Run(ss, acts) && i < |ss|
    ensures id in ss[i].shelf.leftover <==> LeftSince(ss, acts, i, id)
  {
    if i == 0 {
    } else {
      LeftoverHistory(ss, acts, i - 1, id);
      RunLeftover(ss, acts, i - 1, id);
      LeftOneMore(ss, acts, i - 1, id);
    }
  }

  lemma RunLeftover(ss: seq<State>, acts: seq<Action>, i: nat, id: Id)
    requires Run(ss, acts) && i < |acts|
    ensures id in ss[i + 1].shelf.leftover <==>
      LeavesRecord(ss[i], acts[i], id) || (id in ss[i].shelf.leftover && !Admits(ss[i], acts[i], id))
  {
    assert Moves(ss, acts, i);
    StepLeftover(ss[i], acts[i], ss[i + 1], id);
  }

  /**
    A record without a card: exactly when a Submit of that video wrote one, answered ErrStorage,
    and no later Submit of it has registered a job.
   */
  lemma RecordWithoutCard(ss: seq<State>, acts: seq<Action>, i: nat, id: Id)
    requires Run(ss, acts) && i < |ss|
    ensures id in ss[i].shelf.disk && id !in ss[i].core.reg <==> LeftSince(ss, acts, i, id)
  {
    NoResurrection(ss, acts, i);
    LeftoverHistory(ss, acts, i, id);
    assert id in ss[i].shelf.disk.Keys - ss[i].core.reg.Keys <==> id in ss[i].shelf.leftover;
  }
}
