/** Deletions get done: a measure no step raises and some possible step lowers until the attempt closes. */
module Progress {
  import opened Model
  import opened JobCore
  import opened JobMachine
  import opened Ownership
  import opened QuietSteps
  import opened Invariant
  import opened LockSteps
  import opened RemovalSteps
  import opened RegistrySteps
  import opened Deletion

  /** Steps worker t still takes before it releases o. */
  function OwnerLeft(th: map<Tid, Pc>, t: Tid, o: Oid): nat {
    if t in th && Own(th[t]) == Some(o) then WorkLeft(th[t]) else 0
  }

  function RemoveLeft(r: RemoveAt): nat {
    match r
    case Announcing => 5
    case Checking => 4
    case Removing(_) => 3
    case Removed(_) => 2
    case Stuck(_) => 2
  }

  /** Steps of the finalizer; 6 while it is not known which thread that will be. */
  function FinLeft(s: State, o: Oid): nat {
    if o in s.guard.fin && s.guard.fin[o] in s.threads && s.threads[s.guard.fin[o]].Remover?
    then RemoveLeft(s.threads[s.guard.fin[o]].r) else 6
  }

  /** o's saveMu is held by a detached save or by the closer of an earlier attempt. */
  predicate Blocked(s: State, o: Oid) {
    && o in s.guard.lock && s.guard.lock[o] in s.threads
    && var pc := s.threads[s.guard.lock[o]];
    Own(pc).None? && !pc.Remover?
  }

  /** The attempt is the current removal of its registered job. */
  predicate Current(s: State, a: Aid) {
    && a < |s.guard.atts|
    && var o := s.guard.atts[a].o;
    Registered(s.core, o) && s.core.objs[o].removal == Some(a)
  }

  function JobRank(s: State, o: Oid): nat {
    OwnerLeft(s.threads, 0, o) + OwnerLeft(s.threads, 1, o) + OwnerLeft(s.threads, 2, o)
    + FinLeft(s, o) + (if Blocked(s, o) then 1 else 0)
  }

  /** How far attempt a is from being closed: owners left, finalizer steps left, lock holder. */
  function Rank(s: State, a: Aid): nat
    requires a < |s.guard.atts|
  {
    if s.guard.atts[a].done then 0
    else if Current(s, a) then JobRank(s, s.guard.atts[a].o)
    else 1
  }

  // ---- one thread at a time ----

  lemma QuietRank(s: State, s': State, o: Oid)
    requires Inv(s) && Quiet(s, s')
    ensures JobRank(s', o) <= JobRank(s, o)
  {
    QuietOwnerLeft(s, s', 0, o);
    QuietOwnerLeft(s, s', 1, o);
    QuietOwnerLeft(s, s', 2, o);
    QuietFinLeft(s, s', o);
  }

  lemma QuietOwnerLeft(s: State, s': State, t: Tid, o: Oid)
    requires Quiet(s, s') && t in s.threads
    ensures OwnerLeft(s'.threads, t, o) <= OwnerLeft(s.threads, t, o)
  {
    assert QuietMove(s.threads, s'.core, s.guard.atts, t, s'.threads[t]);
  }

  lemma QuietFinLeft(s: State, s': State, o: Oid)
    requires FinOk(s.threads, s.guard.fin) && LocksOk(s.threads, s.guard.lock) && Quiet(s, s')
    ensures FinLeft(s', o) == FinLeft(s, o) && (Blocked(s', o) ==> Blocked(s, o))
  {
    if o in s.guard.fin {
      assert QuietMove(s.threads, s'.core, s.guard.atts, s.guard.fin[o], s'.threads[s.guard.fin[o]]);
    }
    if o in s.guard.lock {
      assert QuietMove(s.threads, s'.core, s.guard.atts, s.guard.lock[o], s'.threads[s.guard.lock[o]]);
    }
  }

  /** Every known thread but t stays, or is woken. */
  ghost predicate KnownStay(th: map<Tid, Pc>, t: Tid, th': map<Tid, Pc>) {
    forall u | u in th && u != t :: u in th' && (th'[u] == th[u] || th'[u] == Woken(th[u]))
  }

  /** Thread t's share of the measure. */
  function Share(s: State, t: Tid, o: Oid): nat {
    OwnerLeft(s.threads, t, o) + FinLeft(s, o) + (if Blocked(s, o) then 1 else 0)
  }

  /** When only thread t moves, the measure falls as much as t's share. */
  lemma MoveRank(s: State, s': State, t: Tid, o: Oid)
    requires RolesOk(s.threads) && t in s.threads && t in s'.threads && KnownStay(s.threads, t, s'.threads)
    requires 2 < t ==> Own(s'.threads[t]).None?
    ensures JobRank(s', o) - JobRank(s, o) <= Share(s', t, o) - Share(s, t, o)
  {
    assert RoleOk(t, s.threads[t]);
    if t != 0 { MoveOwnerLeft(s.threads, t, s'.threads, 0, o); }
    if t != 1 { MoveOwnerLeft(s.threads, t, s'.threads, 1, o); }
    if t != 2 { MoveOwnerLeft(s.threads, t, s'.threads, 2, o); }
  }

  lemma MoveOwnerLeft(th: map<Tid, Pc>, t: Tid, th': map<Tid, Pc>, u: Tid, o: Oid)
    requires KnownStay(th, t, th') && u in th && u in th' && u != t
    ensures OwnerLeft(th', u, o) == OwnerLeft(th, u, o)
  {
  }

  // ---- steps of another job, or of this one ----

  /** Thread t works on another job: it neither owns nor removes o, before or after. */
  ghost predicate Elsewhere(s: State, t: Tid, s': State, o: Oid) {
    && t in s.threads && t in s'.threads && KnownStay(s.threads, t, s'.threads)
    && Own(s.threads[t]) != Some(o) && Own(s'.threads[t]) != Some(o)
    && Removal(s.threads[t]) != Some(o) && Removal(s'.threads[t]) != Some(o)
    && (o in s'.guard.fin <==> o in s.guard.fin) && (o in s.guard.fin ==> s'.guard.fin[o] == s.guard.fin[o])
    && (o in s'.guard.lock ==> o in s.guard.lock && s'.guard.lock[o] == s.guard.lock[o] && s.guard.lock[o] != t)
  }

  lemma ElsewhereRank(s: State, t: Tid, s': State, o: Oid)
    requires OwnershipOk(s) && LocksOk(s.threads, s.guard.lock) && Elsewhere(s, t, s', o) && RoleOk(t, s'.threads[t])
    ensures JobRank(s', o) <= JobRank(s, o)
  {
    ElsewhereShare(s, t, s', o);
    MoveRank(s, s', t, o);
  }

  lemma ElsewhereShare(s: State, t: Tid, s': State, o: Oid)
    requires FinOk(s.threads, s.guard.fin) && LocksOk(s.threads, s.guard.lock) && Elsewhere(s, t, s', o)
    ensures Share(s', t, o) <= Share(s, t, o)
  {
    if o in s.guard.fin { assert s.guard.fin[o] != t; }
  }

  /** A job being deleted is not picked, not saved anew, and not marked again. */
  lemma CurrentDeleting(s: State, a: Aid)
    requires Inv(s) && Current(s, a)
    ensures s.core.objs[s.guard.atts[a].o].deleting
  {
    assert RemovalOk(s.core, s.guard.fin, s.guard.atts[a].o);
  }

  lemma PickRank(s: State, t: Tid, wk: WorkStep, s': State, o: Oid)
    requires Inv(s) && WorkNext(s, t, wk, s') && s.threads[t].Loop? && wk.Pick? && wk.choice.Some? && !s.core.closing
    requires o < |s.core.objs| && s.core.objs[o].deleting
    ensures JobRank(s', o) <= JobRank(s, o)
  {
    assert RoleOk(t, s.threads[t]);
    PickFacts(s.core, t, s.threads[t].kind, wk.choice.value);
    ElsewhereRank(s, t, s', o);
  }

  lemma ReleaseShare(s: State, t: Tid, s': State)
    requires Inv(s) && WorkNext(s, t, Release, s')
    ensures var o := s.threads[t].o; s.core.objs[o].deleting ==> Share(s', t, o) < Share(s, t, o)
    ensures s.threads[t].o !in s.guard.fin
  {
    var o := s.threads[t].o;
    assert RoleOk(t, s.threads[t]) && Own(s.threads[t]) == Some(o);
    assert Registered(s.core, o) && OwnedBy(s.core, t, o) && RemovalOk(s.core, s.guard.fin, o);
  }

  lemma ReleaseRank(s: State, t: Tid, s': State, o: Oid)
    requires Inv(s) && WorkNext(s, t, Release, s') && o < |s.core.objs| && s.core.objs[o].deleting
    ensures JobRank(s', o) <= JobRank(s, o)
    ensures s.threads[t].o == o ==> JobRank(s', o) < JobRank(s, o)
  {
    assert RoleOk(t, s.threads[t]) && Own(s.threads[t]) == Some(s.threads[t].o);
    ReleaseShare(s, t, s');
    if s.threads[t].o != o {
      ElsewhereRank(s, t, s', o);
    } else {
      MoveRank(s, s', t, o);
    }
  }

  lemma SaveEndShare(s: State, t: Tid, sv: SaveStep, s': State)
    requires OwnershipOk(s) && LocksOk(s.threads, s.guard.lock) && SaveNext(s, t, sv, s') && sv.SaveEnd?
    ensures var o := s.threads[t].o; Share(s', t, o) < Share(s, t, o)
    ensures RoleOk(t, s'.threads[t])
  {
    var o := s.threads[t].o;
    assert RoleOk(t, s.threads[t]) && Holds(s.threads[t]) == Some(o);
    if o in s.guard.fin { assert s.guard.fin[o] != t; }
    SaveEndComesCloser(s, t, sv, s');
  }

  lemma SaveEndComesCloser(s: State, t: Tid, sv: SaveStep, s': State)
    requires SaveNext(s, t, sv, s') && sv.SaveEnd? && RoleOk(t, s.threads[t])
    requires var o := s.threads[t].o;
      o in s.guard.lock && s.guard.lock[o] == t && (o in s.guard.fin ==> s.guard.fin[o] != t)
    ensures var o := s.threads[t].o; Share(s', t, o) < Share(s, t, o)
    ensures RoleOk(t, s'.threads[t])
  {
  }

  lemma SaveRank(s: State, t: Tid, sv: SaveStep, s': State, o: Oid)
    requires Inv(s) && SaveNext(s, t, sv, s') && o < |s.core.objs| && s.core.objs[o].deleting
    requires sv.SaveEnd? || Snapshot(s.core, s.threads[t].o).Some?
    ensures JobRank(s', o) <= JobRank(s, o)
    ensures sv.SaveEnd? && s.threads[t].o == o ==> JobRank(s', o) < JobRank(s, o)
  {
    assert RoleOk(t, s.threads[t]);
    if s.threads[t].o != o {
      SaveElsewhere(s, t, sv, s', o);
      ElsewhereRank(s, t, s', o);
    } else {
      SaveEndShare(s, t, sv, s');
      StepStays(s, SaveAct(t, sv), s');
      MoveRank(s, s', t, o);
    }
  }

  lemma SaveElsewhere(s: State, t: Tid, sv: SaveStep, s': State, o: Oid)
    requires OwnershipOk(s) && LocksOk(s.threads, s.guard.lock) && SaveNext(s, t, sv, s') && s.threads[t].o != o
    requires sv.SaveEnd? || Snapshot(s.core, s.threads[t].o).Some?
    ensures Elsewhere(s, t, s', o) && RoleOk(t, s'.threads[t])
  {
    assert RoleOk(t, s.threads[t]);
  }

  lemma RemoverComesCloser(s: State, t: Tid, rm: RemoveStep, s': State)
    requires RemoveNext(s, t, rm, s') && s.threads[t].Remover? && !rm.TakeOut? && !rm.GiveBack?
    requires var o := s.threads[t].o;
      && Finalizable(s.core, o) && s.core.objs[o].removal.Some? && o in s.guard.fin && s.guard.fin[o] == t
      && (Holds(s.threads[t]).Some? ==> o in s.guard.lock && s.guard.lock[o] == t)
    ensures var o := s.threads[t].o; Share(s', t, o) < Share(s, t, o)
  {
  }

  lemma RemoverShare(s: State, t: Tid, rm: RemoveStep, s': State)
    requires OwnershipOk(s) && LocksOk(s.threads, s.guard.lock) && PcsOk(s)
    requires RemoveNext(s, t, rm, s') && s.threads[t].Remover? && !rm.TakeOut? && !rm.GiveBack?
    ensures var o := s.threads[t].o; Share(s', t, o) < Share(s, t, o)
    ensures RoleOk(t, s'.threads[t])
  {
    CheckFinds(s, t);
    HolderRegistered(s, t);
    assert RoleOk(t, s.threads[t]);
    RemoverComesCloser(s, t, rm, s');
  }

  lemma RemoverRank(s: State, t: Tid, rm: RemoveStep, s': State, o: Oid)
    requires Inv(s) && RemoveNext(s, t, rm, s') && s.threads[t].Remover? && !rm.TakeOut? && !rm.GiveBack?
    ensures JobRank(s', o) <= JobRank(s, o)
    ensures s.threads[t].o == o ==> JobRank(s', o) < JobRank(s, o)
  {
    RemoverShare(s, t, rm, s');
    if s.threads[t].o != o {
      RemoverElsewhere(s, t, rm, s', o);
      ElsewhereRank(s, t, s', o);
    } else {
      MoveRank(s, s', t, o);
    }
  }

  lemma RemoverElsewhere(s: State, t: Tid, rm: RemoveStep, s': State, o: Oid)
    requires Inv(s) && RemoveNext(s, t, rm, s') && s.threads[t].Remover? && !rm.TakeOut? && !rm.GiveBack?
    requires s.threads[t].o != o
    ensures Elsewhere(s, t, s', o)
  {
    CheckFinds(s, t);
  }

  lemma CloserShare(s: State, t: Tid, s': State)
    requires OwnershipOk(s) && LocksOk(s.threads, s.guard.lock) && RemoveNext(s, t, CloseDone, s')
    ensures var o := s.threads[t].o; Share(s', t, o) < Share(s, t, o)
    ensures RoleOk(t, s'.threads[t])
  {
    assert RoleOk(t, s.threads[t]) && Holds(s.threads[t]) == Some(s.threads[t].o);
  }

  lemma CloserRank(s: State, t: Tid, s': State, o: Oid)
    requires Inv(s) && RemoveNext(s, t, CloseDone, s')
    ensures JobRank(s', o) <= JobRank(s, o)
    ensures s.threads[t].o == o ==> JobRank(s', o) < JobRank(s, o)
  {
    CloserShare(s, t, s');
    if s.threads[t].o != o {
      ElsewhereRank(s, t, s', o);
    } else {
      MoveRank(s, s', t, o);
    }
  }

  lemma EndRank(s: State, t: Tid, rm: RemoveStep, s': State, o: Oid)
    requires Inv(s) && RemoveNext(s, t, rm, s') && (rm.TakeOut? || rm.GiveBack?) && s.threads[t].o != o
    ensures JobRank(s', o) <= JobRank(s, o)
  {
    EndFacts(s, t, rm, s');
    HolderRegistered(s, t);
    assert RoleOk(t, s.threads[t]);
    ElsewhereRank(s, t, s', o);
  }

  lemma CallerRank(s: State, t: Tid, ca: CallerStep, s': State, o: Oid)
    requires Inv(s) && CallerNext(s, t, ca, s') && (ca.SubmitOnce? || ca.DeleteOnce?)
    requires Registered(s.core, o) && s.core.objs[o].deleting
    ensures Quiet(s, s') || Elsewhere(s, t, s', o)
    ensures t in s'.threads && RoleOk(t, s'.threads[t])
  {
    assert RoleOk(t, s.threads[t]);
    if ca.SubmitOnce? {
      SubmitElsewhere(s, t, ca, s', o);
    } else {
      DeleteElsewhere(s, t, ca, s', o);
    }
  }

  lemma SubmitElsewhere(s: State, t: Tid, ca: CallerStep, s': State, o: Oid)
    requires OwnershipOk(s) && LocksOk(s.threads, s.guard.lock) && AttemptsOk(s)
    requires CallerNext(s, t, ca, s') && ca.SubmitOnce? && RoleOk(t, s.threads[t])
    ensures Quiet(s, s') || Elsewhere(s, t, s', o)
    ensures t in s'.threads && RoleOk(t, s'.threads[t])
  {
    var out := Submit(s.core, s.threads[t].q.id, ca.now, ca.ok).1;
    if out.SubmitAwait? {
      JoinsAttempt(s, s.core.reg[s.threads[t].q.id]);
      PlainSubmitElsewhere(s, t, ca, s', o);
    } else if out.SubmitNew? || out.SubmitStorage? {
      PlainSubmitElsewhere(s, t, ca, s', o);
    } else {
      SubmitQuiet(s, t, ca, s');
    }
  }

  /** A Submit that waits, registers or fails to store touches no other job. */
  lemma PlainSubmitElsewhere(s: State, t: Tid, ca: CallerStep, s': State, o: Oid)
    requires LocksOk(s.threads, s.guard.lock)
    requires CallerNext(s, t, ca, s') && ca.SubmitOnce? && RoleOk(t, s.threads[t])
    requires var out := Submit(s.core, s.threads[t].q.id, ca.now, ca.ok).1;
      (out.SubmitAwait? && out.att.Some?) || out.SubmitNew? || out.SubmitStorage?
    ensures Elsewhere(s, t, s', o)
    ensures t in s'.threads && RoleOk(t, s'.threads[t])
  {
  }

  lemma DeleteElsewhere(s: State, t: Tid, ca: CallerStep, s': State, o: Oid)
    requires OwnershipOk(s) && LocksOk(s.threads, s.guard.lock) && AttemptsOk(s) && CallerNext(s, t, ca, s') &&
      ca.DeleteOnce? && RoleOk(t, s.threads[t])
    requires Registered(s.core, o) && s.core.objs[o].deleting
    ensures Elsewhere(s, t, s', o)
    ensures t in s'.threads && RoleOk(t, s'.threads[t])
  {
    var out := Delete(s.core, s.threads[t].q.id, |s.guard.atts|).1;
    if out.DeleteJoin? {
      JoinsAttempt(s, s.core.reg[s.threads[t].q.id]);
    }
    MarksOther(s, t, ca, s', o);
  }

  lemma MarksOther(s: State, t: Tid, ca: CallerStep, s': State, o: Oid)
    requires CallerNext(s, t, ca, s') && ca.DeleteOnce? && 2 < t && Registered(s.core, o) && s.core.objs[o].deleting
    requires var out := Delete(s.core, s.threads[t].q.id, |s.guard.atts|).1; out.DeleteJoin? ==> out.att.Some?
    requires o in s.guard.lock ==> s.guard.lock[o] in s.threads && Holds(s.threads[s.guard.lock[o]]).Some?
    ensures Elsewhere(s, t, s', o)
    ensures t in s'.threads && RoleOk(t, s'.threads[t])
  {
  }

  // ---- no step raises the measure ----

  lemma StepJobRank(s: State, act: Action, s': State, o: Oid)
    requires Inv(s) && Step(s, act, s') && Registered(s.core, o) && s.core.objs[o].deleting
    requires act.RemoveAct? && (act.rm.TakeOut? || act.rm.GiveBack?) ==>
      act.t in s.threads && s.threads[act.t].Remover? && s.threads[act.t].o != o
    ensures JobRank(s', o) <= JobRank(s, o)
  {
    match act
    case WorkAct(t, wk) => WorkRank(s, t, wk, s', o);
    case SaveAct(t, sv) =>
      if sv.SaveBegin? && Snapshot(s.core, s.threads[t].o).None? {
        SaveSkipQuiet(s, t, s');
        QuietRank(s, s', o);
      } else {
        SaveRank(s, t, sv, s', o);
      }
    case RemoveAct(t, rm) =>
      if rm.TakeOut? || rm.GiveBack? { EndRank(s, t, rm, s', o); }
      else if rm.CloseDone? { CloserRank(s, t, s', o); }
      else { RemoverRank(s, t, rm, s', o); }
    case CallerAct(t, ca) =>
      if ca.SubmitOnce? || ca.DeleteOnce? {
        CallerRank(s, t, ca, s', o);
        if Quiet(s, s') { QuietRank(s, s', o); } else { ElsewhereRank(s, t, s', o); }
      } else {
        CallerQuiet(s, t, ca, s');
        QuietRank(s, s', o);
      }
    case Call(t, q) =>
      CallQuiet(s, t, q, s');
      QuietRank(s, s', o);
  }

  lemma WorkRank(s: State, t: Tid, wk: WorkStep, s': State, o: Oid)
    requires Inv(s) && WorkNext(s, t, wk, s') && o < |s.core.objs| && s.core.objs[o].deleting
    ensures JobRank(s', o) <= JobRank(s, o)
  {
    if s.threads[t].Loop? && wk.Pick? && !s.core.closing && wk.choice.Some? {
      PickRank(s, t, wk, s', o);
    } else if s.threads[t].Loop? {
      LoopQuiet(s, t, wk, s');
      QuietRank(s, s', o);
    } else if wk.Release? {
      ReleaseRank(s, t, s', o);
    } else {
      OwnStepQuiet(s, t, wk, s');
      QuietRank(s, s', o);
    }
  }

  /** An attempt that is no longer current stays so until it is closed. */
  lemma NotCurrentStays(s: State, act: Action, s': State, a: Aid)
    requires Inv(s) && Step(s, act, s') && a < |s.guard.atts| && !s.guard.atts[a].done && !Current(s, a)
    ensures a < |s'.guard.atts| && (s'.guard.atts[a].done || !Current(s', a))
  {
    StepKeeps(s, act, s');
    ClosedOnce(s, act, s', a);
    assert AttemptOk(s, a);
    var o := s.guard.atts[a].o;
    CloserStays(s, act, s', o, a);
  }

  lemma CloserStays(s: State, act: Action, s': State, o: Oid, a: Aid)
    requires Inv(s) && Inv(s') && Step(s, act, s') && AboutToClose(s, o, a)
    requires a < |s.guard.atts| && a < |s'.guard.atts| && s.guard.atts[a].o == o && s'.guard.atts[a].o == o
    ensures s'.guard.atts[a].done || !Current(s', a)
  {
    var t := s.guard.lock[o];
    if act == RemoveAct(t, CloseDone) {
    } else {
      CloserKeepsPc(s, act, s', t);
      assert PcOk(s', s'.threads[t]);
    }
  }

  lemma WorkStays(s: State, t: Tid, wk: WorkStep, s': State)
    requires WorkNext(s, t, wk, s')
    ensures KnownStay(s.threads, t, s'.threads)
  {
  }

  lemma RemoveStays(s: State, t: Tid, rm: RemoveStep, s': State)
    requires RemoveNext(s, t, rm, s')
    ensures KnownStay(s.threads, t, s'.threads)
  {
  }

  lemma CallerStays(s: State, t: Tid, ca: CallerStep, s': State)
    requires CallerNext(s, t, ca, s')
    ensures KnownStay(s.threads, t, s'.threads)
  {
  }

  /** A step moves its own thread and wakes others, nothing more. */
  lemma StepStays(s: State, act: Action, s': State)
    requires Step(s, act, s')
    ensures KnownStay(s.threads, act.t, s'.threads)
  {
    match act
    case WorkAct(t, wk) => WorkStays(s, t, wk, s');
    case SaveAct(t, sv) =>
    case RemoveAct(t, rm) => RemoveStays(s, t, rm, s');
    case CallerAct(t, ca) => CallerStays(s, t, ca, s');
    case Call(t, q) =>
  }

  lemma CloserKeepsPc(s: State, act: Action, s': State, t: Tid)
    requires Step(s, act, s') && t in s.threads && s.threads[t].Closer? && act != RemoveAct(t, CloseDone)
    ensures t in s'.threads && s'.threads[t] == s.threads[t]
  {
    StepStays(s, act, s');
  }

  /** The steps that end a removal make its attempt no longer current. */
  lemma EndsOther(s: State, act: Action, s': State, a: Aid)
    requires Inv(s) && Step(s, act, s') && Current(s, a) && Current(s', a) && s'.guard.atts[a].o == s.guard.atts[a].o
    requires act.RemoveAct? && (act.rm.TakeOut? || act.rm.GiveBack?)
    ensures act.t in s.threads && s.threads[act.t].Remover? && s.threads[act.t].o != s.guard.atts[a].o
  {
    EndFacts(s, act.t, act.rm, s');
  }

  lemma CurrentRank(s: State, act: Action, s': State, a: Aid)
    requires Inv(s) && Step(s, act, s') && Current(s, a) && Current(s', a) && s'.guard.atts[a].o == s.guard.atts[a].o
    ensures JobRank(s', s.guard.atts[a].o) <= JobRank(s, s.guard.atts[a].o)
  {
    CurrentDeleting(s, a);
    if act.RemoveAct? && (act.rm.TakeOut? || act.rm.GiveBack?) {
      EndsOther(s, act, s', a);
    }
    StepJobRank(s, act, s', s.guard.atts[a].o);
  }

  /** The deletion measure of an attempt is never raised, whatever any thread does. */
  lemma RankNeverRises(s: State, act: Action, s': State, a: Aid)
    requires Inv(s) && Step(s, act, s') && a < |s.guard.atts|
    ensures a < |s'.guard.atts| && Rank(s', a) <= Rank(s, a)
  {
    ClosedOnce(s, act, s', a);
    if !s.guard.atts[a].done {
      if !Current(s, a) {
        NotCurrentStays(s, act, s', a);
      } else if Current(s', a) {
        CurrentRank(s, act, s', a);
      }
      OpenRank(s, s', a);
    }
  }

  lemma OpenRank(s: State, s': State, a: Aid)
    requires a < |s.guard.atts| && a < |s'.guard.atts| && s'.guard.atts[a].o == s.guard.atts[a].o
    requires !s.guard.atts[a].done && (!Current(s, a) && Current(s', a) ==> s'.guard.atts[a].done)
    requires Current(s, a) && Current(s', a) ==> JobRank(s', s.guard.atts[a].o) <= JobRank(s, s.guard.atts[a].o)
    ensures Rank(s', a) <= Rank(s, a)
  {
  }
}
