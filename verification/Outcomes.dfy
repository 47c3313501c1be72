/** What Delete answers is what the store answered, over whole runs. */
module Outcomes {
  import opened Model
  import opened JobCore
  import opened JobMachine
  import opened Ownership
  import opened Invariant
  import opened RemovalSteps
  import opened Runs
  import opened Deletion

  /** A removal attempt, and whether it failed. */
  datatype Ended = Ended(a: Aid, failed: bool)

  /** The outcome a thread passes on: the finalizer on its way to the close, or a Delete's answer. */
  function PassesOn(pc: Pc): Option<Ended> {
    match pc
    case Remover(_, Removed(a), _) => Some(Ended(a, false))
    case Remover(_, Stuck(a), _) => Some(Ended(a, true))
    case Closer(_, a, failed, _) => Some(Ended(a, failed))
    case Returned(DeleteEnded(a, failed)) => Some(Ended(a, failed))
    case _ => None
  }

  /** The outcome that waiters of the attempt read. */
  predicate Shows(s: State, e: Ended) {
    e.a < |s.guard.atts| && s.guard.atts[e.a].done && s.guard.atts[e.a].failed == e.failed
  }

  /** The store answers Remove, called for the attempt: nil, or an error. */
  predicate StoreAnswers(s: State, act: Action, e: Ended) {
    && act.RemoveAct? && act.t in s.threads && s.threads[act.t].Remover? && s.threads[act.t].r == Removing(e.a)
    && if e.failed then act.rm.RemoveFailed? else act.rm.RemoveOk?
  }

  // ---- one step ----

  predicate PassedBefore(s: State, t: Tid, e: Ended) {
    t in s.threads && PassesOn(s.threads[t]) == Some(e)
  }

  lemma FinalizerPasses(s: State, t: Tid, rm: RemoveStep, s': State, u: Tid, e: Ended)
    requires RemoveNext(s, t, rm, s') && s.threads[t].Remover? && Finalizable(s.core, s.threads[t].o)
    requires u in s'.threads && PassesOn(s'.threads[u]) == Some(e)
    ensures PassedBefore(s, u, e) || StoreAnswers(s, RemoveAct(t, rm), e)
  {
  }

  lemma CloserPasses(s: State, t: Tid, rm: RemoveStep, s': State, u: Tid, e: Ended)
    requires RemoveNext(s, t, rm, s') && s.threads[t].Closer?
    requires u in s'.threads && PassesOn(s'.threads[u]) == Some(e)
    ensures PassedBefore(s, u, e)
  {
  }

  lemma RemoverPasses(s: State, t: Tid, rm: RemoveStep, s': State, u: Tid, e: Ended)
    requires OwnershipOk(s) && PcsOk(s) && RemoveNext(s, t, rm, s')
    requires u in s'.threads && PassesOn(s'.threads[u]) == Some(e)
    ensures PassedBefore(s, u, e) || StoreAnswers(s, RemoveAct(t, rm), e)
  {
    if s.threads[t].Remover? {
      CheckFinds(s, t);
      FinalizerPasses(s, t, rm, s', u, e);
    } else {
      CloserPasses(s, t, rm, s', u, e);
    }
  }

  lemma SubmitPasses(s: State, t: Tid, ca: CallerStep, s': State, u: Tid, e: Ended)
    requires CallerNext(s, t, ca, s') && ca.SubmitOnce? && u in s'.threads && PassesOn(s'.threads[u]) == Some(e)
    ensures PassedBefore(s, u, e)
  {
  }

  lemma CallerPasses(s: State, t: Tid, ca: CallerStep, s': State, u: Tid, e: Ended)
    requires CallerNext(s, t, ca, s') && u in s'.threads && PassesOn(s'.threads[u]) == Some(e)
    ensures PassedBefore(s, u, e) || Shows(s, e)
  {
    if ca.SubmitOnce? {
      SubmitPasses(s, t, ca, s', u, e);
    }
  }

  lemma WorkerPasses(s: State, t: Tid, wk: WorkStep, s': State, u: Tid, e: Ended)
    requires WorkNext(s, t, wk, s') && u in s'.threads && PassesOn(s'.threads[u]) == Some(e)
    ensures PassedBefore(s, u, e)
  {
  }

  /** An outcome a thread passes on was passed on before, read off the attempt, or has just been answered. */
  lemma StepPasses(s: State, act: Action, s': State, u: Tid, e: Ended)
    requires Inv(s) && Step(s, act, s') && u in s'.threads && PassesOn(s'.threads[u]) == Some(e)
    ensures PassedBefore(s, u, e) || Shows(s, e) || StoreAnswers(s, act, e)
  {
    match act
    case WorkAct(t, wk) => WorkerPasses(s, t, wk, s', u, e);
    case SaveAct(_, _) =>
    case RemoveAct(t, rm) => RemoverPasses(s, t, rm, s', u, e);
    case CallerAct(t, ca) => CallerPasses(s, t, ca, s', u, e);
    case Call(_, _) =>
  }

  /** What an attempt shows it showed before, or its closer has just passed on. */
  lemma StepShows(s: State, act: Action, s': State, e: Ended)
    requires Inv(s) && Step(s, act, s') && Shows(s', e)
    ensures Shows(s, e) || PassedBefore(s, act.t, e)
  {
    if act.RemoveAct? && act.rm.CloseDone? {
    } else if e.a < |s.guard.atts| {
      AttemptsOnlyAdded(s, act, s', e.a);
    } else {
      NewAttemptsOpen(s, act, s', e.a);
    }
  }

  lemma NewAttemptsOpen(s: State, act: Action, s': State, a: Aid)
    requires Step(s, act, s') && !(act.RemoveAct? && act.rm.CloseDone?) && |s.guard.atts| <= a < |s'.guard.atts|
    ensures !s'.guard.atts[a].done
  {
    if act.CallerAct? {
      CallerAttemptsOpen(s, act.t, act.ca, s', a);
    }
  }

  lemma CallerAttemptsOpen(s: State, t: Tid, ca: CallerStep, s': State, a: Aid)
    requires CallerNext(s, t, ca, s') && |s.guard.atts| <= a < |s'.guard.atts|
    ensures !s'.guard.atts[a].done
  {
  }

  // ---- over runs ----

  ghost predicate Answered(ss: seq<State>, acts: seq<Action>, i: nat, e: Ended)
    requires i <= |acts| < |ss|
  {
    exists k :: 0 <= k < i && StoreAnswers(ss[k], acts[k], e)
  }

  /** Every outcome that a thread passes on or an attempt shows was the store's answer. */
  ghost predicate AllAnswered(ss: seq<State>, acts: seq<Action>, i: nat)
    requires i <= |acts| < |ss|
  {
    && (forall t, e | PassedBefore(ss[i], t, e) :: Answered(ss, acts, i, e))
    && (forall e | Shows(ss[i], e) :: Answered(ss, acts, i, e))
  }

  lemma AnsweredLater(ss: seq<State>, acts: seq<Action>, i: nat, e: Ended)
    requires i < |acts| < |ss| && (Answered(ss, acts, i, e) || StoreAnswers(ss[i], acts[i], e))
    ensures Answered(ss, acts, i + 1, e)
  {
    if k :| 0 <= k < i && StoreAnswers(ss[k], acts[k], e) {
      assert 0 <= k < i + 1;
    }
  }

  lemma PassesAnswered(ss: seq<State>, acts: seq<Action>, i: nat, t: Tid, e: Ended)
    requires Run(ss, acts) && i < |acts| && AllAnswered(ss, acts, i) && PassedBefore(ss[i + 1], t, e)
    ensures Answered(ss, acts, i + 1, e)
  {
    InvariantAt(ss, acts, i);
    StepPasses(ss[i], acts[i], ss[i + 1], t, e);
    AnsweredLater(ss, acts, i, e);
  }

  lemma ShowsAnswered(ss: seq<State>, acts: seq<Action>, i: nat, e: Ended)
    requires Run(ss, acts) && i < |acts| && AllAnswered(ss, acts, i) && Shows(ss[i + 1], e)
    ensures Answered(ss, acts, i + 1, e)
  {
    InvariantAt(ss, acts, i);
    StepShows(ss[i], acts[i], ss[i + 1], e);
    AnsweredLater(ss, acts, i, e);
  }

  lemma {:induction false} RunAnswered(ss: seq<State>, acts: seq<Action>, i: nat)
    requires Run(ss, acts) && i < |ss|
    ensures AllAnswered(ss, acts, i)
  {
    if i == 0 {
    } else {
      RunAnswered(ss, acts, i - 1);
      forall t, e | PassedBefore(ss[i], t, e) ensures Answered(ss, acts, i, e) {
        PassesAnswered(ss, acts, i - 1, t, e);
      }
      forall e | Shows(ss[i], e) ensures Answered(ss, acts, i, e) {
        ShowsAnswered(ss, acts, i - 1, e);
      }
    }
  }

  /** A Delete that was answered, with nil or an error, was answered what the store had answered for its attempt. */
  lemma DeleteTellsTheStore(ss: seq<State>, acts: seq<Action>, i: nat, t: Tid, a: Aid, failed: bool)
    requires Run(ss, acts) && i < |ss| && t in ss[i].threads
    requires ss[i].threads[t] == Returned(DeleteEnded(a, failed))
    ensures exists k :: 0 <= k < i && StoreAnswers(ss[k], acts[k], Ended(a, failed))
  {
    RunAnswered(ss, acts, i);
    assert PassedBefore(ss[i], t, Ended(a, failed));
  }
}
