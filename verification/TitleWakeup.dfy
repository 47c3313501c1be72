/**
  Title workers can miss a wakeup, but only for one job: the download in flight. (It may have
  failed without a title after it was picked; starting it, or reporting on it, makes it
  unfinished again and wakes nobody.)
 */
module TitleWakeup {
  import opened Model
  import opened JobCore
  import opened JobMachine
  import opened Ownership
  import opened Invariant
  import opened Queue
  import opened CalmSteps
  import opened Runs

  predicate TitleParked(th: map<Tid, Pc>) {
    (1 in th && th[1] == Loop(Title, Parked)) || (2 in th && th[2] == Loop(Title, Parked))
  }

  predicate IsWaking(pc: Pc) {
    (pc.Loop? && pc.l.Waking?) || (pc.Remover? && pc.r.Announcing?)
  }

  /** Some worker has released its job and is about to broadcast. */
  predicate WakePending(th: map<Tid, Pc>) {
    (0 in th && IsWaking(th[0])) || (1 in th && IsWaking(th[1])) || (2 in th && IsWaking(th[2]))
  }

  /** Title work for a job other than the download in flight. */
  predicate Missed(s: State, o: Oid) {
    TitlePickable(s.core, o) && Flight(s.threads) != Some(o)
  }

  ghost predicate NoneMissed(s: State) {
    forall o | 0 <= o < |s.core.objs| :: !Missed(s, o)
  }

  ghost predicate TitleOk(s: State) {
    TitleParked(s.threads) ==> !s.core.closing && (WakePending(s.threads) || NoneMissed(s))
  }

  // ---- what steps may do ----

  ghost predicate FewerTitles(c: Core, c': Core) {
    forall o | 0 <= o < |c'.objs| && TitlePickable(c', o) :: TitlePickable(c, o)
  }

  predicate NoneParks(th: map<Tid, Pc>, th': map<Tid, Pc>) {
    (TitleParked(th') ==> TitleParked(th)) && (WakePending(th) ==> WakePending(th'))
  }

  ghost predicate Kept(s: State, s': State) {
    && NoneParks(s.threads, s'.threads) && (s'.core.closing ==> s.core.closing)
    && (forall o | 0 <= o < |s'.core.objs| && Missed(s', o) :: Missed(s, o))
  }

  /** Woken, kept, about to wake, or just looked: a step never loses more than the flight. */
  ghost predicate TitleCalm(s: State, s': State) {
    || !TitleParked(s'.threads)
    || Kept(s, s')
    || ((TitleParked(s'.threads) ==> TitleParked(s.threads)) && s'.core.closing == s.core.closing
        && (WakePending(s'.threads) || s.core.closing))
    || (!s'.core.closing && NoneMissed(s'))
  }

  lemma CalmKeepsTitle(s: State, s': State)
    requires TitleOk(s) && TitleCalm(s, s')
    ensures TitleOk(s')
  {
  }

  lemma QuietTitle(s: State, s': State)
    requires FewerTitles(s.core, s'.core) && NoneParks(s.threads, s'.threads) && Flight(s'.threads) == Flight(s.threads)
    requires s'.core.closing ==> s.core.closing
    ensures TitleCalm(s, s')
  {
    forall o | 0 <= o < |s'.core.objs| && Missed(s', o) ensures Missed(s, o) {
      assert TitlePickable(s'.core, o);
    }
  }

  /** A caller or a detached save moves no worker. */
  lemma OthersPark(th: map<Tid, Pc>, th': map<Tid, Pc>)
    requires 0 in th && 1 in th && 2 in th && 0 in th' && 1 in th' && 2 in th'
    requires th'[0] == th[0] && th'[1] == th[1] && th'[2] == th[2]
    ensures NoneParks(th, th') && Flight(th') == Flight(th)
  {
  }

  lemma AllWoken(th: map<Tid, Pc>, th': map<Tid, Pc>)
    requires 1 in th && 2 in th && 1 in th' && 2 in th'
    requires th'[1] == Woken(th[1]) || !th'[1].Loop? || !th'[1].l.Parked?
    requires th'[2] == Woken(th[2]) || !th'[2].Loop? || !th'[2].l.Parked?
    ensures !TitleParked(th')
  {
  }

  // ---- workers ----

  lemma PickTitleCalm(s: State, t: Tid, wk: WorkStep, s': State)
    requires RolesOk(s.threads) && WorkNext(s, t, wk, s') && wk.Pick?
    ensures TitleCalm(s, s')
  {
    assert RoleOk(t, s.threads[t]);
    if !s.core.closing && t != 0 && wk.choice.None? {
      assert NoneMissed(s');
    } else {
      PickKeeps(s, t, wk, s');
    }
  }

  lemma PickKeeps(s: State, t: Tid, wk: WorkStep, s': State)
    requires WorkNext(s, t, wk, s') && wk.Pick? && RoleOk(t, s.threads[t])
    requires s.core.closing || t == 0 || wk.choice.Some?
    ensures TitleCalm(s, s')
  {
    assert FewerTitles(s.core, s'.core);
    assert NoneParks(s.threads, s'.threads) && Flight(s'.threads) == Flight(s.threads);
    QuietTitle(s, s');
  }

  lemma BroadcastCalm(s: State, t: Tid, s': State)
    requires RolesOk(s.threads) && WorkNext(s, t, Broadcast, s')
    ensures TitleCalm(s, s')
  {
    AllWoken(s.threads, s'.threads);
  }

  lemma ReleaseCalmly(s: State, t: Tid, s': State)
    requires RolesOk(s.threads) && WorkNext(s, t, Release, s')
    ensures TitleCalm(s, s')
  {
    assert RoleOk(t, s.threads[t]);
    assert t in s'.threads && IsWaking(s'.threads[t]);
  }

  lemma BeginKeeps(s: State, t: Tid, s': State)
    requires RolesOk(s.threads) && WorkNext(s, t, Begin, s')
    ensures TitleCalm(s, s')
  {
    assert RoleOk(t, s.threads[t]);
    assert Flight(s'.threads) == Some(s.threads[0].o);
    assert Kept(s, s');
  }

  lemma ProgressKeeps(s: State, t: Tid, wk: WorkStep, s': State)
    requires RolesOk(s.threads) && WorkNext(s, t, wk, s') && wk.Progress?
    ensures TitleCalm(s, s')
  {
    assert RoleOk(t, s.threads[t]);
    OthersPark(s.threads, s'.threads);
    assert Flight(s.threads) == Some(s.threads[0].o);
    assert Kept(s, s');
  }

  lemma FinishKeeps(s: State, t: Tid, wk: WorkStep, s': State)
    requires OwnershipOk(s) && WorkNext(s, t, wk, s') && wk.Finish?
    ensures TitleCalm(s, s')
  {
    assert RoleOk(t, s.threads[t]);
    assert Own(s.threads[t]) == Some(s.threads[t].o);
    if !s.core.closing {
      assert Kept(s, s');
    }
  }

  lemma EditFewer(s: State, t: Tid, kind: Kind, o: Oid, w: Work, wk: WorkStep, s': State)
    requires o < |s.core.objs| && OwnStep(s, t, kind, o, w, wk, s') && !wk.Begin? && !wk.Progress? && !wk.Finish?
    ensures FewerTitles(s.core, s'.core) && s'.core.closing == s.core.closing
  {
  }

  lemma EditKeeps(s: State, t: Tid, wk: WorkStep, s': State)
    requires RolesOk(s.threads) && WorkNext(s, t, wk, s') && s.threads[t].Owns?
    requires !wk.Begin? && !wk.Progress? && !wk.Finish? && !wk.Release?
    ensures TitleCalm(s, s')
  {
    var pc := s.threads[t];
    assert RoleOk(t, pc);
    EditFewer(s, t, pc.kind, pc.o, pc.w, wk, s');
    assert NoneParks(s.threads, s'.threads) && Flight(s'.threads) == Flight(s.threads);
    QuietTitle(s, s');
  }

  lemma WorkTitle(s: State, t: Tid, wk: WorkStep, s': State)
    requires OwnershipOk(s) && WorkNext(s, t, wk, s')
    ensures TitleCalm(s, s')
  {
    if s.threads[t].Loop? {
      if wk.Pick? {
        PickTitleCalm(s, t, wk, s');
      } else {
        BroadcastCalm(s, t, s');
      }
    } else if wk.Release? {
      ReleaseCalmly(s, t, s');
    } else if wk.Begin? {
      BeginKeeps(s, t, s');
    } else if wk.Progress? {
      ProgressKeeps(s, t, wk, s');
    } else if wk.Finish? {
      FinishKeeps(s, t, wk, s');
    } else {
      EditKeeps(s, t, wk, s');
    }
  }

  // ---- saves, removals, callers ----

  lemma SaveTitle(s: State, t: Tid, sv: SaveStep, s': State)
    requires RolesOk(s.threads) && SaveNext(s, t, sv, s')
    ensures TitleCalm(s, s')
  {
    assert RoleOk(t, s.threads[t]);
    assert NoneParks(s.threads, s'.threads) && Flight(s'.threads) == Flight(s.threads);
    QuietTitle(s, s');
  }

  lemma RemoveFewer(s: State, t: Tid, rm: RemoveStep, s': State)
    requires RegOk(s.core) && RemoveNext(s, t, rm, s')
    ensures FewerTitles(s.core, s'.core) && s'.core.closing == s.core.closing
  {
  }

  lemma RemoveParks(s: State, t: Tid, rm: RemoveStep, s': State)
    requires RolesOk(s.threads) && RemoveNext(s, t, rm, s')
    ensures if rm.Announce? then !TitleParked(s'.threads) else NoneParks(s.threads, s'.threads)
  {
    assert RoleOk(t, s.threads[t]);
    if rm.Announce? {
      AllWoken(s.threads, s'.threads);
    }
  }

  lemma RemoveTitle(s: State, t: Tid, rm: RemoveStep, s': State)
    requires OwnershipOk(s) && RemoveNext(s, t, rm, s')
    ensures TitleCalm(s, s')
  {
    RemoveParks(s, t, rm, s');
    RemoveFewer(s, t, rm, s');
    RemoveFlight(s, t, rm, s');
    if !rm.Announce? {
      QuietTitle(s, s');
    }
  }

  lemma CallerParks(s: State, t: Tid, ca: CallerStep, s': State)
    requires RolesOk(s.threads) && CallerNext(s, t, ca, s')
    ensures if Wakes(s, t, ca) then !TitleParked(s'.threads)
            else NoneParks(s.threads, s'.threads) && Flight(s'.threads) == Flight(s.threads)
  {
    assert RoleOk(t, s.threads[t]);
    CallerMoves(s, t, ca, s', 0);
    CallerMoves(s, t, ca, s', 1);
    CallerMoves(s, t, ca, s', 2);
    if Wakes(s, t, ca) {
      AllWoken(s.threads, s'.threads);
    } else {
      OthersPark(s.threads, s'.threads);
    }
  }

  lemma CallerFewer(s: State, t: Tid, ca: CallerStep, s': State)
    requires CallerNext(s, t, ca, s') && !Wakes(s, t, ca)
    ensures FewerTitles(s.core, s'.core) && s'.core.closing == s.core.closing
  {
    match ca
    case DeleteOnce => DeleteFewer(s.core, s.threads[t].q.id, |s.guard.atts|);
    case ListOne(size, _) =>
      if s.threads[t].q.todo != [] { ListFewer(s.core, s.threads[t].q.todo[0], size); }
    case CloseEnd(_) => InterruptFewer(s.core);
    case _ =>
  }

  lemma DeleteFewer(c: Core, id: Id, a: Aid)
    requires RegOk(c)
    ensures FewerTitles(c, Delete(c, id, a).0)
  {
  }

  lemma ListFewer(c: Core, o: Oid, size: Option<int>)
    requires o < |c.objs|
    ensures FewerTitles(c, ListCheck(c, o, size).0)
  {
  }

  lemma InterruptFewer(c: Core)
    ensures FewerTitles(c, Interrupt(c))
  {
  }

  lemma CallerTitle(s: State, t: Tid, ca: CallerStep, s': State)
    requires OwnershipOk(s) && CallerNext(s, t, ca, s')
    ensures TitleCalm(s, s')
  {
    CallerParks(s, t, ca, s');
    if !Wakes(s, t, ca) {
      CallerFewer(s, t, ca, s');
      QuietTitle(s, s');
    }
  }

  lemma StepTitle(s: State, a: Action, s': State)
    requires Inv(s) && TitleOk(s) && Step(s, a, s')
    ensures TitleOk(s')
  {
    match a
    case WorkAct(t, wk) => WorkTitle(s, t, wk, s'); CalmKeepsTitle(s, s');
    case SaveAct(t, sv) => SaveTitle(s, t, sv, s'); CalmKeepsTitle(s, s');
    case RemoveAct(t, rm) => RemoveTitle(s, t, rm, s'); CalmKeepsTitle(s, s');
    case CallerAct(t, ca) => CallerTitle(s, t, ca, s'); CalmKeepsTitle(s, s');
    case Call(t, q) =>
      OthersPark(s.threads, s'.threads);
      QuietTitle(s, s');
      CalmKeepsTitle(s, s');
  }

  lemma {:induction false} RunTitle(ss: seq<State>, acts: seq<Action>, i: nat)
    requires Run(ss, acts) && i < |ss|
    ensures TitleOk(ss[i])
  {
    if i == 0 {
    } else {
      RunTitle(ss, acts, i - 1);
      RunTitleMoves(ss, acts, i - 1);
    }
  }

  lemma RunTitleMoves(ss: seq<State>, acts: seq<Action>, i: nat)
    requires Run(ss, acts) && i < |acts| && TitleOk(ss[i])
    ensures TitleOk(ss[i + 1])
  {
    InvariantAt(ss, acts, i);
    StepTitle(ss[i], acts[i], ss[i + 1]);
  }

  /**
    Whenever a title worker is parked and no broadcast is about to come, the only job that could
    use it, if any, is the one being downloaded.
   */
  lemma OnlyTheFlightIsMissed(ss: seq<State>, acts: seq<Action>, i: nat, o: Oid)
    requires Run(ss, acts) && i < |ss| && TitleParked(ss[i].threads) && !WakePending(ss[i].threads)
    requires TitlePickable(ss[i].core, o)
    ensures Flight(ss[i].threads) == Some(o)
  {
    RunTitle(ss, acts, i);
    assert Missed(ss[i], o) || Flight(ss[i].threads) == Some(o);
  }

  // ---- the step that makes them miss it ----

  ghost predicate NoTitleWork(c: Core) {
    forall o | 0 <= o < |c.objs| :: !TitlePickable(c, o)
  }

  /** A title worker sleeps, nobody is about to wake it, and there is work for it. */
  ghost predicate Misses(s: State) {
    TitleParked(s.threads) && !WakePending(s.threads) && !NoTitleWork(s.core)
  }

  /** The job would be picked for its title if it counted as unfinished. */
  predicate NeedsTitle(c: Core, o: Oid) {
    Shown(c, o) && var r := c.objs[o]; r.job.title == "" && !r.fetching && r.titleTries < TITLE_ATTEMPTS
  }

  /** The download worker starts, or reports on, a job without a title that does not count. */
  predicate RevivesUntitled(s: State, a: Action) {
    && a.WorkAct? && a.t in s.threads && s.threads[a.t].Owns? && (a.wk.Begin? || a.wk.Progress?)
    && NeedsTitle(s.core, s.threads[a.t].o) && !Unfinished(s.core.objs[s.threads[a.t].o].job)
  }

  lemma SetStatusTitles(c: Core, o: Oid, status: Status)
    requires o < |c.objs| && InPipeline(status) && NoTitleWork(c)
    ensures var c' := SetObj(c, o, Put(c.objs[o], c.objs[o].job.(status := status)));
      NoTitleWork(c') <==> !(NeedsTitle(c, o) && !Unfinished(c.objs[o].job))
  {
    var c' := SetObj(c, o, Put(c.objs[o], c.objs[o].job.(status := status)));
    assert TitlePickable(c', o) == NeedsTitle(c, o);
    assert TitlePickable(c, o) == (NeedsTitle(c, o) && Unfinished(c.objs[o].job));
    assert forall p | 0 <= p < |c.objs| && p != o :: TitlePickable(c', p) == TitlePickable(c, p);
  }

  lemma StartMisses(s: State, t: Tid, wk: WorkStep, s': State)
    requires WorkNext(s, t, wk, s') && (wk.Begin? || wk.Progress?) && OwnershipOk(s) && NoTitleWork(s.core)
    ensures NoTitleWork(s'.core) <==> !RevivesUntitled(s, WorkAct(t, wk))
    ensures TitleParked(s'.threads) == TitleParked(s.threads) && WakePending(s'.threads) == WakePending(s.threads)
  {
    var o := s.threads[t].o;
    assert RoleOk(t, s.threads[t]);
    assert Registered(s.core, o) by {
      assert Own(s.threads[t]) == Some(o);
    }
    SetStatusTitles(s.core, o, if wk.Begin? then Downloading else StatusForStage(wk.stage));
  }

  lemma FinishFewer(c: Core, o: Oid, out: Outcome)
    requires o < |c.objs|
    ensures FewerTitles(c, FinishDownload(c, o, out).0)
  {
  }

  /** Every other step of a worker wakes the title workers, is about to, or makes no work for them. */
  lemma OtherWork(s: State, t: Tid, wk: WorkStep, s': State)
    requires OwnershipOk(s) && WorkNext(s, t, wk, s') && !wk.Begin? && !wk.Progress?
    ensures !TitleParked(s'.threads) || WakePending(s'.threads) || FewerTitles(s.core, s'.core)
  {
    var pc := s.threads[t];
    assert RoleOk(t, pc);
    if pc.Loop? {
      LoopFewer(s, t, wk, s');
    } else if wk.Release? {
      assert t in s'.threads && IsWaking(s'.threads[t]);
    } else if wk.Finish? {
      FinishFewer(s.core, pc.o, wk.out);
    } else {
      EditFewer(s, t, pc.kind, pc.o, pc.w, wk, s');
    }
  }

  lemma LoopFewer(s: State, t: Tid, wk: WorkStep, s': State)
    requires WorkNext(s, t, wk, s') && s.threads[t].Loop?
    ensures FewerTitles(s.core, s'.core)
  {
  }

  lemma OtherStep(s: State, a: Action, s': State)
    requires Inv(s) && Step(s, a, s') && !(a.WorkAct? && (a.wk.Begin? || a.wk.Progress?))
    ensures !TitleParked(s'.threads) || WakePending(s'.threads) || FewerTitles(s.core, s'.core)
  {
    match a
    case WorkAct(t, wk) => OtherWork(s, t, wk, s');
    case SaveAct(_, _) =>
    case RemoveAct(t, rm) =>
      RemoveFewer(s, t, rm, s');
    case CallerAct(t, ca) =>
      CallerParks(s, t, ca, s');
      if !Wakes(s, t, ca) {
        CallerFewer(s, t, ca, s');
      }
    case Call(_, _) =>
  }

  /**
    Title work is missed from a state with a sleeping title worker and none to miss exactly by
    starting, or reporting on, a shown job that needs a title and had stopped counting.
   */
  lemma StepMisses(s: State, a: Action, s': State)
    requires Inv(s) && Step(s, a, s')
    requires TitleParked(s.threads) && !WakePending(s.threads) && NoTitleWork(s.core)
    ensures Misses(s') <==> RevivesUntitled(s, a)
  {
    if a.WorkAct? && (a.wk.Begin? || a.wk.Progress?) {
      StartMisses(s, a.t, a.wk, s');
    } else {
      OtherStep(s, a, s');
      assert FewerTitles(s.core, s'.core) ==> NoTitleWork(s'.core);
    }
  }
}
