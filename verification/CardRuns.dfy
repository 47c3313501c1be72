/** Cards over whole runs: why a card is ready or failed, and what stays true of every card. */
module CardRuns {
  import opened Model
  import opened JobCore
  import opened JobMachine
  import opened Ownership
  import opened Invariant
  import opened Queue
  import opened Runs
  import opened Progress
  import opened Cards

  // ---- why a card is ready ----

  predicate ReadyAt(s: State, o: Oid) {
    o < |s.core.objs| && s.core.objs[o].job.status.Ready?
  }

  ghost predicate ReadyFrom(ss: seq<State>, k: nat, i: nat, o: Oid)
    requires i < |ss|
  {
    forall m | k <= m <= i :: ReadyAt(ss[m], o)
  }

  /** Ready since the start of the run, or since the end of its own successful download. */
  ghost predicate HasOrigin(ss: seq<State>, acts: seq<Action>, i: nat, o: Oid)
    requires i <= |acts| < |ss|
  {
    ReadyFrom(ss, 0, i, o) || exists k :: 0 <= k < i && EndedWellAt(ss, acts, k, i, o)
  }

  ghost predicate EndedWellAt(ss: seq<State>, acts: seq<Action>, k: nat, i: nat, o: Oid)
    requires k < i <= |acts| < |ss|
  {
    EndsWell(ss[k], acts[k], o) && ReadyFrom(ss, k + 1, i, o)
  }

  lemma OriginMoves(ss: seq<State>, acts: seq<Action>, i: nat, o: Oid)
    requires Run(ss, acts) && i < |acts| && ReadyAt(ss[i + 1], o) && (ReadyAt(ss[i], o) ==> HasOrigin(ss, acts, i, o))
    ensures HasOrigin(ss, acts, i + 1, o)
  {
    assert Moves(ss, acts, i);
    if ReadyAt(ss[i], o) {
      OriginGrows(ss, acts, i, o);
    } else {
      ReadyMoves(ss[i], acts[i], ss[i + 1], o);
      assert EndedWellAt(ss, acts, i, i + 1, o);
    }
  }

  lemma OriginGrows(ss: seq<State>, acts: seq<Action>, i: nat, o: Oid)
    requires i < |acts| < |ss| && HasOrigin(ss, acts, i, o) && ReadyAt(ss[i + 1], o)
    ensures HasOrigin(ss, acts, i + 1, o)
  {
    if !ReadyFrom(ss, 0, i, o) {
      var k :| 0 <= k < i && EndedWellAt(ss, acts, k, i, o);
      assert EndedWellAt(ss, acts, k, i + 1, o);
    }
  }

  lemma ReadyMoves(s: State, act: Action, s': State, o: Oid)
    requires Step(s, act, s') && ReadyAt(s', o) && !ReadyAt(s, o)
    ensures EndsWell(s, act, o)
  {
    if o < |s.core.objs| {
      BecomesReady(s, act, s', o);
    } else {
      CardAppears(s, act, s');
    }
  }

  /** Every ready card was recovered as ready, or goes back to the end of its own successful download. */
  lemma {:induction false} ReadyHasOrigin(ss: seq<State>, acts: seq<Action>, i: nat, o: Oid)
    requires Run(ss, acts) && i < |ss| && ReadyAt(ss[i], o)
    ensures HasOrigin(ss, acts, i, o)
  {
    if i == 0 {
    } else {
      if ReadyAt(ss[i - 1], o) {
        ReadyHasOrigin(ss, acts, i - 1, o);
      }
      OriginMoves(ss, acts, i - 1, o);
    }
  }

  // ---- why a card is failed ----

  predicate FailedAt(s: State, o: Oid, msg: string) {
    o < |s.core.objs| && s.core.objs[o].job.status.Failed? && s.core.objs[o].job.error == msg
  }

  ghost predicate FailedFrom(ss: seq<State>, k: nat, i: nat, o: Oid, msg: string)
    requires i < |ss|
  {
    forall m | k <= m <= i :: FailedAt(ss[m], o, msg)
  }

  /** Failed with this message since the start of the run, or since a step that failed it so. */
  ghost predicate HasReason(ss: seq<State>, acts: seq<Action>, i: nat, o: Oid, msg: string)
    requires i <= |acts| < |ss|
  {
    FailedFrom(ss, 0, i, o, msg) || exists k, cause :: 0 <= k < i && FailedSoAt(ss, acts, k, i, o, msg, cause)
  }

  ghost predicate FailedSoAt(ss: seq<State>, acts: seq<Action>, k: nat, i: nat, o: Oid, msg: string, cause: FailCause)
    requires k < i <= |acts| < |ss|
  {
    FailsBy(ss[k], acts[k], o, cause) && FailMessage(acts[k], cause) == msg && FailedFrom(ss, k + 1, i, o, msg)
  }

  /** A step that does not fail a card leaves a failed one with its message, or not failed. */
  lemma StaysFailed(s: State, act: Action, s': State, o: Oid, msg: string)
    requires Step(s, act, s') && FailedAt(s', o, msg) && !FailsSomehow(s, act, o)
    ensures FailedAt(s, o, msg)
  {
    if o < |s.core.objs| {
      JobAfter(s, act, s', o);
      OtherEffects(s, act, o);
    } else {
      CardAppears(s, act, s');
    }
  }

  lemma OtherEffects(s: State, act: Action, o: Oid)
    requires o < |s.core.objs| && !FailsSomehow(s, act, o)
    ensures var j, j' := s.core.objs[o].job, Applied(s.core.objs[o].job, EffectOf(s, act, o));
      j'.status.Failed? ==> j.status.Failed? && j.error == j'.error
  {
    FailEffect(s, act, o);
    NoFailedStage(s, act, o);
  }

  lemma NoFailedStage(s: State, act: Action, o: Oid)
    requires o < |s.core.objs|
    ensures EffectOf(s, act, o).Proceeds? ==> InPipeline(EffectOf(s, act, o).status)
  {
  }

  lemma ReasonGrows(ss: seq<State>, acts: seq<Action>, i: nat, o: Oid, msg: string)
    requires i < |acts| < |ss| && HasReason(ss, acts, i, o, msg) && FailedAt(ss[i + 1], o, msg)
    ensures HasReason(ss, acts, i + 1, o, msg)
  {
    if !FailedFrom(ss, 0, i, o, msg) {
      var k, cause :| 0 <= k < i && FailedSoAt(ss, acts, k, i, o, msg, cause);
      FailedOneMore(ss, k + 1, i, o, msg);
      assert FailedSoAt(ss, acts, k, i + 1, o, msg, cause);
    } else {
      FailedOneMore(ss, 0, i, o, msg);
    }
  }

  lemma FailedOneMore(ss: seq<State>, k: nat, i: nat, o: Oid, msg: string)
    requires i + 1 < |ss| && FailedFrom(ss, k, i, o, msg) && FailedAt(ss[i + 1], o, msg)
    ensures FailedFrom(ss, k, i + 1, o, msg)
  {
  }

  lemma ReasonMoves(ss: seq<State>, acts: seq<Action>, i: nat, o: Oid, msg: string)
    requires Run(ss, acts) && i < |acts| && FailedAt(ss[i + 1], o, msg)
    requires FailedAt(ss[i], o, msg) ==> HasReason(ss, acts, i, o, msg)
    ensures HasReason(ss, acts, i + 1, o, msg)
  {
    assert Moves(ss, acts, i);
    if FailsSomehow(ss[i], acts[i], o) {
      var cause :| FailsBy(ss[i], acts[i], o, cause);
      FailedCard(ss[i], acts[i], ss[i + 1], o, cause);
      assert FailedSoAt(ss, acts, i, i + 1, o, msg, cause);
    } else {
      StaysFailed(ss[i], acts[i], ss[i + 1], o, msg);
      ReasonGrows(ss, acts, i, o, msg);
    }
  }

  /** Every failed card was recovered so, or goes back to a step that failed it with the message it shows. */
  lemma {:induction false} FailedHasReason(ss: seq<State>, acts: seq<Action>, i: nat, o: Oid, msg: string)
    requires Run(ss, acts) && i < |ss| && FailedAt(ss[i], o, msg)
    ensures HasReason(ss, acts, i, o, msg)
  {
    if i == 0 {
    } else {
      if FailedAt(ss[i - 1], o, msg) {
        FailedHasReason(ss, acts, i - 1, o, msg);
      }
      ReasonMoves(ss, acts, i - 1, o, msg);
    }
  }

  // ---- deleting cards are cancelled ----

  ghost predicate DeletingCancelled(s: State) {
    forall o | 0 <= o < |s.core.objs| && s.core.objs[o].deleting :: s.core.objs[o].cancelled
  }

  lemma StepDeletingCancelled(s: State, act: Action, s': State)
    requires Step(s, act, s') && DeletingCancelled(s)
    ensures DeletingCancelled(s')
  {
    forall o | 0 <= o < |s'.core.objs| && s'.core.objs[o].deleting ensures s'.core.objs[o].cancelled {
      if o < |s.core.objs| {
        FlagsAfter(s, act, s', o);
      } else {
        CardAppears(s, act, s');
      }
    }
  }

  lemma RunDeletingMoves(ss: seq<State>, acts: seq<Action>, i: nat)
    requires Run(ss, acts) && i < |acts| && DeletingCancelled(ss[i])
    ensures DeletingCancelled(ss[i + 1])
  {
    assert Moves(ss, acts, i);
    StepDeletingCancelled(ss[i], acts[i], ss[i + 1]);
  }

  lemma {:induction false} RunDeleting(ss: seq<State>, acts: seq<Action>, i: nat)
    requires Run(ss, acts) && i < |ss|
    ensures DeletingCancelled(ss[i])
  {
    if i == 0 {
    } else {
      RunDeleting(ss, acts, i - 1);
      RunDeletingMoves(ss, acts, i - 1);
    }
  }

  /** A job being deleted has a cancelled context: its download and its fetch were told to stop. */
  lemma DeletingIsCancelled(ss: seq<State>, acts: seq<Action>, i: nat, o: Oid)
    requires Run(ss, acts) && i < |ss| && o < |ss[i].core.objs| && ss[i].core.objs[o].deleting
    ensures CtxDone(ss[i].core, o)
  {
    RunDeleting(ss, acts, i);
  }

  // ---- a job that was given up is not tried for its title again ----

  lemma StaysExhausted(s: State, act: Action, s': State, o: Oid)
    requires Step(s, act, s') && o < |s.core.objs| && s.core.objs[o].titleTries >= 3
    ensures o < |s'.core.objs| && s'.core.objs[o].titleTries >= 3
  {
    FlagsAfter(s, act, s', o);
  }

  lemma RunExhausted(ss: seq<State>, acts: seq<Action>, i: nat, o: Oid)
    requires Run(ss, acts) && i < |acts| && o < |ss[i].core.objs| && ss[i].core.objs[o].titleTries >= 3
    ensures o < |ss[i + 1].core.objs| && ss[i + 1].core.objs[o].titleTries >= 3
  {
    assert Moves(ss, acts, i);
    StaysExhausted(ss[i], acts[i], ss[i + 1], o);
  }

  lemma {:induction false} ExhaustedStays(ss: seq<State>, acts: seq<Action>, i: nat, j: nat, o: Oid)
    requires Run(ss, acts) && i <= j < |ss| && o < |ss[i].core.objs| && ss[i].core.objs[o].titleTries >= 3
    ensures o < |ss[j].core.objs| && ss[j].core.objs[o].titleTries >= 3
    decreases j - i
  {
    if i == j {
    } else {
      RunExhausted(ss, acts, i, o);
      ExhaustedStays(ss, acts, i + 1, j, o);
    }
  }

  /** After the worker's last attempt on its job no title worker ever picks the job again. */
  lemma GivenUpForGood(ss: seq<State>, acts: seq<Action>, i: nat, j: nat, o: Oid)
    requires Run(ss, acts) && i < j < |acts| && OwnerDoes(ss[i], acts[i], o, Exhausted)
    ensures !PicksNow(ss[j], acts[j], o, Title)
  {
    RunGivesUp(ss, acts, i, o);
    ExhaustedStays(ss, acts, i + 1, j, o);
    assert Moves(ss, acts, j);
    NotPickedAgain(ss[j], acts[j], ss[j + 1], o);
  }

  lemma RunGivesUp(ss: seq<State>, acts: seq<Action>, i: nat, o: Oid)
    requires Run(ss, acts) && i < |acts| && OwnerDoes(ss[i], acts[i], o, Exhausted)
    ensures o < |ss[i + 1].core.objs| && ss[i + 1].core.objs[o].titleTries >= 3
  {
    InvariantAt(ss, acts, i);
    GivesUp(ss[i], acts[i], ss[i + 1], o);
  }

  lemma GivesUp(s: State, act: Action, s': State, o: Oid)
    requires OwnershipOk(s) && Step(s, act, s') && OwnerDoes(s, act, o, Exhausted)
    ensures o < |s'.core.objs| && s'.core.objs[o].titleTries >= 3
  {
    assert Own(s.threads[act.t]) == Some(o);
    FlagsAfter(s, act, s', o);
  }

  lemma NotPickedAgain(s: State, act: Action, s': State, o: Oid)
    requires Step(s, act, s') && o < |s.core.objs| && s.core.objs[o].titleTries >= 3
    ensures !PicksNow(s, act, o, Title)
  {
  }

  // ---- three fetches ----

  /** The fetches of thread t that have failed since it last took a job, after these actions. */
  function FailedFetches(acts: seq<Action>, i: nat, t: Tid): nat
    requires i <= |acts|
  {
    if i == 0 then 0 else FailedAfter(FailedFetches(acts, i - 1, t), acts[i - 1], t)
  }

  function FailedAfter(f: nat, act: Action, t: Tid): nat {
    if !act.WorkAct? || act.t != t then f
    else if act.wk.Pick? then 0
    else if act.wk.FetchFailed? then f + 1
    else f
  }

  /** The n-th fetch follows n - 1 failed ones, the n-th wait n; a job is given up after three. */
  predicate FetchCounted(pc: Pc, f: nat) {
    pc.Owns? ==>
      && (pc.w.Fetching? ==> 1 <= pc.w.n <= 3 && f == pc.w.n - 1)
      && (pc.w.Delaying? ==> 1 <= pc.w.n <= 2 && f == pc.w.n)
      && (pc.w.GivingUp? ==> f == 3)
  }

  ghost predicate FetchesCounted(s: State, acts: seq<Action>, i: nat)
    requires i <= |acts|
  {
    forall t | t in s.threads :: FetchCounted(s.threads[t], FailedFetches(acts, i, t))
  }

  /** After a failed fetch: leave when cancelled or closing, give up after the third, else wait for the next. */
  lemma FetchFails(s: State, t: Tid, s': State, f: nat)
    requires WorkNext(s, t, FetchFailed, s') && s.threads[t].w.Fetching? && FetchCounted(s.threads[t], f)
    ensures var kind, o, n := s.threads[t].kind, s.threads[t].o, s.threads[t].w.n;
      && s'.core == s.core && t in s'.threads && o < |s.core.objs|
      && s'.threads[t] == Owns(kind, o, if s.core.objs[o].cancelled || s.core.closing then Leaving
                                        else if n == 3 then GivingUp else Delaying(n))
  {
  }

  /** The wait is for the next fetch, unless it was interrupted. */
  lemma WaitEnds(s: State, t: Tid, interrupted: bool, s': State)
    requires WorkNext(s, t, Waited(interrupted), s')
    ensures s.threads[t].Owns? && s.threads[t].w.Delaying? && s'.core == s.core && t in s'.threads
    ensures var kind, o, n := s.threads[t].kind, s.threads[t].o, s.threads[t].w.n;
      s'.threads[t] == Owns(kind, o, if interrupted then Leaving else Fetching(n + 1))
  {
  }

  lemma WorkerCounted(s: State, t: Tid, wk: WorkStep, s': State, f: nat)
    requires WorkNext(s, t, wk, s') && FetchCounted(s.threads[t], f)
    ensures t in s'.threads && FetchCounted(s'.threads[t], FailedAfter(f, WorkAct(t, wk), t))
  {
  }

  lemma MoverCounted(s: State, act: Action, s': State, f: nat)
    requires Step(s, act, s') && act.t in s'.threads && (act.t in s.threads ==> FetchCounted(s.threads[act.t], f))
    ensures FetchCounted(s'.threads[act.t], FailedAfter(f, act, act.t))
  {
    match act
    case WorkAct(t, wk) => WorkerCounted(s, t, wk, s', f);
    case SaveAct(_, _) =>
    case RemoveAct(t, rm) => RemoverCounted(s, t, rm, s', f);
    case CallerAct(t, ca) => CallerCounted(s, t, ca, s', f);
    case Call(_, _) =>
  }

  lemma RemoverCounted(s: State, t: Tid, rm: RemoveStep, s': State, f: nat)
    requires RemoveNext(s, t, rm, s') && t in s'.threads
    ensures FetchCounted(s'.threads[t], f)
  {
  }

  lemma CallerCounted(s: State, t: Tid, ca: CallerStep, s': State, f: nat)
    requires CallerNext(s, t, ca, s') && t in s'.threads
    ensures FetchCounted(s'.threads[t], f)
  {
  }

  lemma StepCounted(s: State, act: Action, s': State, acts: seq<Action>, i: nat)
    requires Inv(s) && Inv(s') && Step(s, act, s') && i < |acts| && acts[i] == act && FetchesCounted(s, acts, i)
    ensures FetchesCounted(s', acts, i + 1)
  {
    StepStays(s, act, s');
    if act.t in s'.threads {
      MoverCounted(s, act, s', FailedFetches(acts, i, act.t));
    }
    OthersCounted(s.threads, act.t, s'.threads, acts, i);
  }

  lemma OthersCounted(th: map<Tid, Pc>, t: Tid, th': map<Tid, Pc>, acts: seq<Action>, i: nat)
    requires 0 in th && 1 in th && 2 in th && RolesOk(th') && KnownStay(th, t, th') && i < |acts| && acts[i].t == t
    requires forall u | u in th :: FetchCounted(th[u], FailedFetches(acts, i, u))
    requires t in th' ==> FetchCounted(th'[t], FailedFetches(acts, i + 1, t))
    ensures forall u | u in th' :: FetchCounted(th'[u], FailedFetches(acts, i + 1, u))
  {
    forall u | u in th' ensures FetchCounted(th'[u], FailedFetches(acts, i + 1, u)) {
      assert RoleOk(u, th'[u]);
    }
  }

  lemma RunCounted(ss: seq<State>, acts: seq<Action>, i: nat)
    requires Run(ss, acts) && i < |acts| && FetchesCounted(ss[i], acts, i)
    ensures FetchesCounted(ss[i + 1], acts, i + 1)
  {
    InvariantAt(ss, acts, i);
    RunInv(ss, acts, i + 1);
    StepCounted(ss[i], acts[i], ss[i + 1], acts, i);
  }

  /** In every run a title worker fetches at most three times for a job it took. */
  lemma {:induction false} ThreeFetches(ss: seq<State>, acts: seq<Action>, i: nat)
    requires Run(ss, acts) && i < |ss|
    ensures FetchesCounted(ss[i], acts, i)
  {
    if i == 0 {
    } else {
      ThreeFetches(ss, acts, i - 1);
      RunCounted(ss, acts, i - 1);
    }
  }

  /** It gives a job up after exactly three failed fetches. */
  lemma GivesUpAfterThree(ss: seq<State>, acts: seq<Action>, i: nat, t: Tid)
    requires Run(ss, acts) && i < |acts| && acts[i] == WorkAct(t, Exhausted)
    ensures FailedFetches(acts, i, t) == 3
  {
    ThreeFetches(ss, acts, i);
    InvariantAt(ss, acts, i);
    ExhaustedFrom(ss[i], t, ss[i + 1]);
  }

  lemma ExhaustedFrom(s: State, t: Tid, s': State)
    requires Step(s, WorkAct(t, Exhausted), s')
    ensures t in s.threads && s.threads[t].Owns? && s.threads[t].w.GivingUp?
  {
  }

  // ---- a result that could not be saved ----

  /** A worker's save of its result fails. */
  predicate SaveOfResultFails(s: State, act: Action, o: Oid) {
    && act.SaveAct? && act.sv.SaveEnd? && !act.sv.ok && act.t in s.threads
    && s.threads[act.t].Storing? && s.threads[act.t].o == o && s.threads[act.t].k.Leave?
  }

  predicate IsMarking(s: State, t: Tid, o: Oid) {
    t in s.threads && s.threads[t].Owns? && s.threads[t].o == o && s.threads[t].w.Marking?
  }

  lemma SaveFails(s: State, act: Action, s': State, o: Oid)
    requires Step(s, act, s') && SaveOfResultFails(s, act, o)
    ensures IsMarking(s', act.t, o)
  {
  }

  /** The next step of that worker fails the card, if it is still shown. */
  lemma MarkingFails(s: State, act: Action, s': State, o: Oid)
    requires OwnershipOk(s) && Step(s, act, s') && IsMarking(s, act.t, o)
    ensures act == WorkAct(act.t, MarkFailed) && o < |s.core.objs| && o < |s'.core.objs|
    ensures Shown(s.core, o) ==> FailedAt(s', o, "Unable to persist the job state. Check server storage.")
  {
    OnlyMarks(s, act, s', o);
    assert Own(s.threads[act.t]) == Some(o);
    if Shown(s.core, o) {
      FailedCard(s, act, s', o, BySave);
    }
  }

  lemma OnlyMarks(s: State, act: Action, s': State, o: Oid)
    requires Step(s, act, s') && IsMarking(s, act.t, o)
    ensures act == WorkAct(act.t, MarkFailed)
  {
  }

  ghost predicate Rests(acts: seq<Action>, i: nat, j: nat, t: Tid)
    requires j <= |acts|
  {
    forall k | i <= k < j :: acts[k].t != t
  }

  lemma MarkingRests(ss: seq<State>, acts: seq<Action>, i: nat, t: Tid, o: Oid)
    requires Run(ss, acts) && i < |acts| && IsMarking(ss[i], t, o) && acts[i].t != t
    ensures IsMarking(ss[i + 1], t, o)
  {
    assert Moves(ss, acts, i);
    StepStays(ss[i], acts[i], ss[i + 1]);
  }

  lemma {:induction false} MarkingStays(ss: seq<State>, acts: seq<Action>, i: nat, j: nat, t: Tid, o: Oid)
    requires Run(ss, acts) && i <= j < |ss| && IsMarking(ss[i], t, o) && Rests(acts, i, j, t)
    ensures IsMarking(ss[j], t, o)
    decreases j
  {
    if i == j {
    } else {
      MarkingStays(ss, acts, i, j - 1, t, o);
      MarkingRests(ss, acts, j - 1, t, o);
    }
  }

  /** When a worker could not save its result, its next step leaves the card failed, if it is still shown. */
  lemma UnsavedResultFails(ss: seq<State>, acts: seq<Action>, i: nat, j: nat, o: Oid)
    requires Run(ss, acts) && i < j < |acts| && SaveOfResultFails(ss[i], acts[i], o)
    requires acts[j].t == acts[i].t && Rests(acts, i + 1, j, acts[i].t)
    ensures Shown(ss[j].core, o) ==>
      FailedAt(ss[j + 1], o, "Unable to persist the job state. Check server storage.")
  {
    RunSaveFails(ss, acts, i, o);
    MarkingStays(ss, acts, i + 1, j, acts[i].t, o);
    RunMarkingFails(ss, acts, j, o);
  }

  lemma RunSaveFails(ss: seq<State>, acts: seq<Action>, i: nat, o: Oid)
    requires Run(ss, acts) && i < |acts| && SaveOfResultFails(ss[i], acts[i], o)
    ensures IsMarking(ss[i + 1], acts[i].t, o)
  {
    assert Moves(ss, acts, i);
    SaveFails(ss[i], acts[i], ss[i + 1], o);
  }

  lemma RunMarkingFails(ss: seq<State>, acts: seq<Action>, j: nat, o: Oid)
    requires Run(ss, acts) && j < |acts| && IsMarking(ss[j], acts[j].t, o)
    ensures Shown(ss[j].core, o) ==>
      FailedAt(ss[j + 1], o, "Unable to persist the job state. Check server storage.")
  {
    InvariantAt(ss, acts, j);
    MarkingFails(ss[j], acts[j], ss[j + 1], o);
  }
}
