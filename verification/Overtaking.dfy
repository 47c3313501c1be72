/** The queue is served in the order of the latest (re)queue; no waiting job is overtaken forever. */
module Overtaking {
  import opened Model
  import opened JobCore
  import opened JobMachine
  import opened Ownership
  import opened Invariant
  import opened Queue
  import opened Runs

  /** The queued jobs ahead of o that the download worker has not picked yet. */
  ghost function Ahead(s: State, o: Oid): set<Oid>
    requires o < |s.core.objs|
  {
    set p | 0 <= p < |s.core.objs| && InQueue(s.core, p) && s.core.objs[p].order < s.core.objs[o].order
            && PickedJob(s.threads) != Some(p)
  }

  /** The job this action hands to the download worker. */
  function PickOf(a: Action): Option<Oid> {
    if a.WorkAct? && a.t == 0 && a.wk.Pick? then a.wk.choice else None
  }

  /** o is in the queue with the same place before and after. */
  predicate KeepsPlace(s: State, s': State, o: Oid) {
    && InQueue(s.core, o) && InQueue(s'.core, o)
    && s'.core.objs[o].order == s.core.objs[o].order
  }

  lemma CalmAhead(s: State, s': State, o: Oid)
    requires Calm(s, s') && KeepsPlace(s, s', o)
    ensures Ahead(s', o) <= Ahead(s, o)
  {
    forall p | p in Ahead(s', o) ensures p in Ahead(s, o) {
      assert CalmAt(s, s', p) && CalmAt(s, s', o);
    }
  }

  lemma EnqueueAhead(s: State, p: Oid, s': State, o: Oid)
    requires Enqueue(s, p, s') && OrdersOk(s.core) && KeepsPlace(s, s', o)
    ensures Ahead(s', o) <= Ahead(s, o)
  {
    forall q | q in Ahead(s', o) ensures q in Ahead(s, o) {
      assert q != p;
    }
  }

  /** The picked job was ahead of every other job that could have been picked. */
  lemma PickAhead(s: State, a: Action, s': State, o: Oid)
    requires Inv(s) && OrdersOk(s.core) && Step(s, a, s') && KeepsPlace(s, s', o)
    requires PickOf(a).Some? && PickOf(a).value != o && !s.core.closing
    ensures PickOf(a).value in Ahead(s, o) && PickOf(a).value !in Ahead(s', o)
  {
    var p := PickOf(a).value;
    assert RoleOk(0, s.threads[0]);
    assert Own(s.threads[0]).None?;
    assert Pickable(s.core, o);
    assert s.core.objs[p].order != s.core.objs[o].order;
  }

  lemma StepAhead(s: State, a: Action, s': State, o: Oid)
    requires Inv(s) && OrdersOk(s.core) && Step(s, a, s') && KeepsPlace(s, s', o)
    ensures Ahead(s', o) <= Ahead(s, o)
  {
    StepQueue(s, a, s');
    if Calm(s, s') {
      CalmAhead(s, s', o);
    } else {
      var p :| Enqueue(s, p, s');
      EnqueueAhead(s, p, s', o);
    }
  }

  /** 1 if the action hands another job to the download worker. */
  function Passes(a: Action, o: Oid): nat {
    if PickOf(a).Some? && PickOf(a).value != o then 1 else 0
  }

  /** How many times actions i..j hand some other job to the download worker. */
  function Overtakes(acts: seq<Action>, i: nat, j: nat, o: Oid): nat
    requires i <= j <= |acts|
  {
    if i == j then 0
    else Passes(acts[j - 1], o) + Overtakes(acts, i, j - 1, o)
  }

  ghost predicate WaitsThrough(ss: seq<State>, i: nat, j: nat, o: Oid)
    requires i <= j < |ss|
  {
    && (forall k | i <= k <= j :: InQueue(ss[k].core, o) && !ss[k].core.closing)
    && (forall k | i <= k <= j :: ss[k].core.objs[o].order == ss[i].core.objs[o].order)
  }

  lemma OvertakeStep(s: State, a: Action, s': State, o: Oid)
    requires Inv(s) && OrdersOk(s.core) && Step(s, a, s') && KeepsPlace(s, s', o) && !s.core.closing
    ensures |Ahead(s', o)| + Passes(a, o) <= |Ahead(s, o)|
  {
    StepAhead(s, a, s', o);
    if PickOf(a).Some? && PickOf(a).value != o {
      PickAhead(s, a, s', o);
      ProperSubsetSize(Ahead(s', o), Ahead(s, o), PickOf(a).value);
    } else {
      SubsetSize(Ahead(s', o), Ahead(s, o));
    }
  }

  lemma PlaceKept(ss: seq<State>, i: nat, j: nat, k: nat, o: Oid)
    requires i <= k < j < |ss| && WaitsThrough(ss, i, j, o)
    ensures KeepsPlace(ss[k], ss[k + 1], o) && !ss[k].core.closing
  {
    assert InQueue(ss[k].core, o) && InQueue(ss[k + 1].core, o);
  }

  lemma OvertakeAt(ss: seq<State>, acts: seq<Action>, i: nat, j: nat, k: nat, o: Oid)
    requires Run(ss, acts) && i <= k < j < |ss| && WaitsThrough(ss, i, j, o)
    ensures o < |ss[k].core.objs| && o < |ss[k + 1].core.objs|
    ensures |Ahead(ss[k + 1], o)| + Passes(acts[k], o) <= |Ahead(ss[k], o)|
  {
    PlaceKept(ss, i, j, k, o);
    OvertakeMove(ss, acts, k, o);
  }

  lemma OvertakeMove(ss: seq<State>, acts: seq<Action>, k: nat, o: Oid)
    requires Run(ss, acts) && k < |acts| && KeepsPlace(ss[k], ss[k + 1], o) && !ss[k].core.closing
    ensures |Ahead(ss[k + 1], o)| + Passes(acts[k], o) <= |Ahead(ss[k], o)|
  {
    RunInv(ss, acts, k);
    assert Moves(ss, acts, k);
    OvertakeStep(ss[k], acts[k], ss[k + 1], o);
  }

  lemma Telescope(acts: seq<Action>, i: nat, j: nat, o: Oid, sizes: seq<nat>)
    requires i <= j <= |acts| && |sizes| == |acts| + 1
    requires forall k | i <= k < j :: SizeFalls(acts, k, o, sizes)
    ensures Overtakes(acts, i, j, o) + sizes[j] <= sizes[i]
  {
    if i < j {
      Telescope(acts, i, j - 1, o, sizes);
      assert SizeFalls(acts, j - 1, o, sizes);
    }
  }

  predicate SizeFalls(acts: seq<Action>, k: nat, o: Oid, sizes: seq<nat>)
    requires k < |acts| && k + 1 < |sizes|
  {
    sizes[k + 1] + Passes(acts[k], o) <= sizes[k]
  }

  ghost function AheadSizes(ss: seq<State>, o: Oid): (sizes: seq<nat>)
    ensures |sizes| == |ss|
    ensures forall k | 0 <= k < |ss| && o < |ss[k].core.objs| :: sizes[k] == |Ahead(ss[k], o)|
  {
    seq(|ss|, k requires 0 <= k < |ss| => if o < |ss[k].core.objs| then |Ahead(ss[k], o)| else 0)
  }

  /**
    While o keeps its place in the queue, other jobs are picked at most as often as there were
    jobs ahead of it at the start.
   */
  lemma BoundedOvertaking(ss: seq<State>, acts: seq<Action>, i: nat, j: nat, o: Oid)
    requires Run(ss, acts) && i <= j < |ss| && WaitsThrough(ss, i, j, o)
    ensures o < |ss[i].core.objs| && Overtakes(acts, i, j, o) <= |Ahead(ss[i], o)|
  {
    var sizes := AheadSizes(ss, o);
    forall k | i <= k < j ensures SizeFalls(acts, k, o, sizes) {
      AheadFalls(ss, acts, i, j, k, o);
    }
    Telescope(acts, i, j, o, sizes);
    assert InQueue(ss[i].core, o);
  }

  lemma AheadFalls(ss: seq<State>, acts: seq<Action>, i: nat, j: nat, k: nat, o: Oid)
    requires Run(ss, acts) && i <= k < j < |ss| && WaitsThrough(ss, i, j, o)
    ensures SizeFalls(acts, k, o, AheadSizes(ss, o))
  {
    OvertakeAt(ss, acts, i, j, k, o);
  }
}
