/**
  Most steps only edit a job, wake workers, or move a caller along. This file proves once, for
  all of them, that registry, flags, locks, attempts and records stay put; the invariant layers
  then handle them together.
 */
module QuietSteps {
  import opened Model
  import opened JobCore
  import opened JobMachine
  import opened Ownership

  // ---- what a quiet step may do to the jobs ----

  /** At most one edit of the embedded job; identity, creation time and flags stay. */
  predicate Edited(r: JobRec, r': JobRec) {
    && r'.job.id == r.job.id && r'.job.createdAt == r.job.createdAt
    && r'.active == r.active && r'.fetching == r.fetching
    && r'.deleting == r.deleting && r'.removal == r.removal
    && ((r'.ver == r.ver && r'.job == r.job) || r'.ver == r.ver + 1)
  }

  ghost predicate QuietCore(c: Core, c': Core) {
    && |c'.objs| == |c.objs| && c'.reg == c.reg
    && (forall o | 0 <= o < |c.objs| :: Edited(c.objs[o], c'.objs[o]))
  }

  // ---- what a quiet step may do to the threads ----

  /** Holds a saveMu, or has a removal to complete. */
  predicate Busy(pc: Pc) {
    pc.Remover? || pc.Closer? || (pc.Storing? && pc.at.Writing?)
  }

  predicate VersionOk(c: Core, o: Oid, base: nat) {
    o < |c.objs| && base <= c.objs[o].ver
  }

  ghost predicate RestOk(c: Core, k: After) {
    k.CloseSaves? ==> forall p | p in k.rest :: VersionOk(c, p.0, p.1)
  }

  predicate EndedWith(atts: seq<Attempt>, a: Aid, failed: bool) {
    a < |atts| && atts[a].done && atts[a].failed == failed
  }

  /** Every job and attempt a thread that is not busy refers to exists. */
  ghost predicate PlainOk(c: Core, atts: seq<Attempt>, pc: Pc) {
    match pc
    case Storing(o, base, at, k) => at.Waiting? && VersionOk(c, o, base) && RestOk(c, k)
    case Client(q) =>
      && (q.SubmitWaiting? ==> q.a < |atts|)
      && (q.DeleteWaiting? ==> q.a < |atts|)
      && (q.Checking? ==> forall o | o in q.todo :: o < |c.objs|)
    case Returned(reply) => reply.DeleteEnded? ==> EndedWith(atts, reply.a, reply.failed)
    case _ => !Busy(pc)
  }

  predicate SamePlace(pc: Pc, pc': Pc) {
    Own(pc') == Own(pc) && WorkLeft(pc') <= WorkLeft(pc) && !Busy(pc) && !Busy(pc')
  }

  /** Thread t's part in a quiet step that leads to pc'. */
  ghost predicate QuietMove(th: map<Tid, Pc>, c': Core, atts: seq<Attempt>, t: Tid, pc': Pc) {
    || (t in th && (pc' == th[t] || pc' == Woken(th[t])))
    || (PlainOk(c', atts, pc') && if t in th then SamePlace(th[t], pc') else Own(pc').None?)
  }

  ghost predicate QuietThreads(th: map<Tid, Pc>, c': Core, atts: seq<Attempt>, th': map<Tid, Pc>) {
    && (forall t | t in th :: t in th')
    && (forall t | t in th' :: RoleOk(t, th'[t]) && QuietMove(th, c', atts, t, th'[t]))
  }

  ghost predicate Quiet(s: State, s': State) {
    && s'.guard == s.guard && s'.shelf == s.shelf
    && QuietCore(s.core, s'.core)
    && QuietThreads(s.threads, s'.core, s.guard.atts, s'.threads)
  }

  // ---- building such steps ----

  lemma GotoQuiet(th: map<Tid, Pc>, c': Core, atts: seq<Attempt>, t: Tid, pc: Pc)
    requires RolesOk(th) && RoleOk(t, pc) && QuietMove(th, c', atts, t, pc)
    ensures QuietThreads(th, c', atts, th[t := pc])
  {
  }

  lemma WakeQuiet(th: map<Tid, Pc>, c': Core, atts: seq<Attempt>, t: Tid, pc: Pc)
    requires RolesOk(th) && RoleOk(t, pc) && QuietMove(th, c', atts, t, pc)
    ensures QuietThreads(th, c', atts, WakeAll(th)[t := pc])
  {
    var th' := WakeAll(th);
    forall u | u in th' ensures RoleOk(u, th'[u]) && th'[u] == Woken(th[u]) {
      assert RoleOk(u, th[u]);
    }
  }

  lemma SpawnQuiet(th: map<Tid, Pc>, c': Core, atts: seq<Attempt>, th': map<Tid, Pc>, o: Oid, ch: Tid)
    requires RolesOk(th) && QuietThreads(th, c', atts, th') && ch !in th && o < |c'.objs|
    ensures QuietThreads(th, c', atts, th'[ch := ToSave(c', o, Detached)])
  {
    var pc := ToSave(c', o, Detached);
    assert PlainOk(c', atts, pc) && Own(pc).None?;
    assert 2 < ch;
  }

  // ---- worker steps ----

  lemma OwnStepCore(s: State, t: Tid, kind: Kind, o: Oid, w: Work, wk: WorkStep, s': State)
    requires o < |s.core.objs| && OwnStep(s, t, kind, o, w, wk, s')
    ensures QuietCore(s.core, s'.core)
  {
  }

  lemma OwnStepPlace(s: State, t: Tid, kind: Kind, o: Oid, w: Work, wk: WorkStep, s': State)
    requires t in s.threads && RoleOk(t, Owns(kind, o, w)) && !wk.Progress?
    requires o < |s.core.objs| && OwnStep(s, t, kind, o, w, wk, s')
    ensures t in s'.threads && s'.threads == s.threads[t := s'.threads[t]]
    ensures RoleOk(t, s'.threads[t]) && SamePlace(Owns(kind, o, w), s'.threads[t])
    ensures PlainOk(s'.core, s.guard.atts, s'.threads[t])
  {
  }

  lemma OwnStepQuiet(s: State, t: Tid, wk: WorkStep, s': State)
    requires RolesOk(s.threads) && WorkNext(s, t, wk, s') && s.threads[t].Owns? && !wk.Release?
    ensures Quiet(s, s')
  {
    var pc := s.threads[t];
    assert RoleOk(t, pc);
    OwnStepCore(s, t, pc.kind, pc.o, pc.w, wk, s');
    if wk.Progress? {
      GotoQuiet(s.threads, s'.core, s.guard.atts, t, pc);
      assert s.threads[t := pc] == s.threads;
      SpawnQuiet(s.threads, s'.core, s.guard.atts, s.threads, pc.o, wk.ch);
    } else {
      OwnStepPlace(s, t, pc.kind, pc.o, pc.w, wk, s');
      GotoQuiet(s.threads, s'.core, s.guard.atts, t, s'.threads[t]);
    }
  }

  lemma LoopQuiet(s: State, t: Tid, wk: WorkStep, s': State)
    requires RolesOk(s.threads) && WorkNext(s, t, wk, s') && s.threads[t].Loop?
    requires wk.Broadcast? || s.core.closing || wk.choice.None?
    ensures Quiet(s, s')
  {
    var kind := s.threads[t].kind;
    assert RoleOk(t, s.threads[t]);
    if wk.Broadcast? {
      WakeQuiet(s.threads, s'.core, s.guard.atts, t, Loop(kind, Top));
    } else {
      GotoQuiet(s.threads, s'.core, s.guard.atts, t, s'.threads[t]);
    }
  }

  // ---- caller steps ----

  lemma OnlyCallerQuiet(s: State, t: Tid, pc: Pc, s': State)
    requires RolesOk(s.threads) && OnlyCaller(s, t, pc, s') && (pc.Client? || pc.Returned?) && 2 < t
    requires t in s.threads ==> s.threads[t].Client?
    requires PlainOk(s.core, s.guard.atts, pc)
    ensures Quiet(s, s')
  {
    GotoQuiet(s.threads, s'.core, s.guard.atts, t, pc);
  }

  lemma RequeueQuiet(s: State, t: Tid, o: Oid, reply: Reply, ch: Tid, s': State)
    requires RolesOk(s.threads) && t in s.threads && s.threads[t].Client? && o < |s.core.objs|
    requires RequeueStep(s, t, Requeue(s.core, o), o, reply, ch, s') && !reply.DeleteEnded?
    ensures Quiet(s, s')
  {
    assert RoleOk(t, s.threads[t]);
    WakeQuiet(s.threads, s'.core, s.guard.atts, t, Returned(reply));
    SpawnQuiet(s.threads, s'.core, s.guard.atts, WakeAll(s.threads)[t := Returned(reply)], o, ch);
  }

  lemma SubmitQuiet(s: State, t: Tid, ca: CallerStep, s': State)
    requires RolesOk(s.threads) && CallerNext(s, t, ca, s') && ca.SubmitOnce?
    requires Submit(s.core, s.threads[t].q.id, ca.now, ca.ok).1.SubmitRequeued?
             || Submit(s.core, s.threads[t].q.id, ca.now, ca.ok).1.SubmitBusy?
             || Submit(s.core, s.threads[t].q.id, ca.now, ca.ok).1.SubmitKnown?
             || Submit(s.core, s.threads[t].q.id, ca.now, ca.ok).1.SubmitClosed?
    ensures Quiet(s, s')
  {
    var id := s.threads[t].q.id;
    var out := Submit(s.core, id, ca.now, ca.ok).1;
    assert RoleOk(t, s.threads[t]);
    if out.SubmitRequeued? {
      RequeueQuiet(s, t, out.o, Submitted(out), ca.ch, s');
    } else {
      OnlyCallerQuiet(s, t, Returned(Submitted(out)), s');
    }
  }

  lemma RetryQuiet(s: State, t: Tid, ca: CallerStep, s': State)
    requires RolesOk(s.threads) && CallerNext(s, t, ca, s') && ca.RetryOnce?
    ensures Quiet(s, s')
  {
    var out := Retry(s.core, s.threads[t].q.id).1;
    assert RoleOk(t, s.threads[t]);
    if out.RetryDone? {
      RequeueQuiet(s, t, out.o, Retried(out), ca.ch, s');
    } else {
      OnlyCallerQuiet(s, t, Returned(Retried(out)), s');
    }
  }

  lemma ReadyExist(c: Core, todo: seq<Oid>)
    requires (set o | o in todo) == ReadyJobs(c)
    ensures forall o | o in todo :: o < |c.objs|
  {
    forall o | o in todo ensures o < |c.objs| {
      assert o in (set p | p in todo);
      assert o in ReadyJobs(c);
    }
  }

  lemma ListReadyQuiet(s: State, t: Tid, ca: CallerStep, s': State)
    requires RolesOk(s.threads) && CallerNext(s, t, ca, s') && ca.ListReady?
    ensures Quiet(s, s')
  {
    assert RoleOk(t, s.threads[t]);
    ReadyExist(s.core, ca.todo);
    OnlyCallerQuiet(s, t, Client(Request.Checking(ca.todo)), s');
  }

  lemma ListQuiet(s: State, t: Tid, todo: seq<Oid>, size: Option<int>, ch: Tid, s': State)
    requires RolesOk(s.threads) && t in s.threads && s.threads[t].Client? && RoleOk(t, s.threads[t])
    requires ListStep(s, t, todo, size, ch, s')
    requires forall o | o in todo :: o < |s.core.objs|
    ensures Quiet(s, s')
  {
    if todo == [] {
      OnlyCallerQuiet(s, t, Returned(Listed), s');
    } else {
      var pc := Client(Request.Checking(todo[1..]));
      assert forall o | o in todo[1..] :: o in todo;
      GotoQuiet(s.threads, s'.core, s.guard.atts, t, pc);
      if ListCheck(s.core, todo[0], size).1 {
        SpawnQuiet(s.threads, s'.core, s.guard.atts, s.threads[t := pc], todo[0], ch);
      }
    }
  }

  lemma CloseQuiet(s: State, t: Tid, ca: CallerStep, s': State)
    requires RolesOk(s.threads) && CallerNext(s, t, ca, s') && (ca.CloseBegin? || ca.CloseEnd?)
    ensures Quiet(s, s')
  {
    assert RoleOk(t, s.threads[t]);
    if ca.CloseBegin? {
      if s.core.closing {
        OnlyCallerQuiet(s, t, Returned(ClosedNow), s');
      } else {
        WakeQuiet(s.threads, s'.core, s.guard.atts, t, Client(CloseWaiting));
      }
    } else {
      InterruptedExist(s.core, ca.order);
      var saves := Versions(s'.core, ca.order);
      assert forall p | p in saves :: VersionOk(s'.core, p.0, p.1);
      GotoQuiet(s.threads, s'.core, s.guard.atts, t, CloseNext(saves));
    }
  }

  lemma InterruptedExist(c: Core, order: seq<Oid>)
    requires (set o | o in order) == InterruptedJobs(c)
    ensures forall i | 0 <= i < |order| :: order[i] < |c.objs|
  {
    forall i | 0 <= i < |order| ensures order[i] < |c.objs| {
      assert order[i] in (set o | o in order);
      assert order[i] in InterruptedJobs(c);
    }
  }

  lemma WaitQuiet(s: State, t: Tid, ca: CallerStep, s': State)
    requires RolesOk(s.threads) && CallerNext(s, t, ca, s') && (ca.SubmitWake? || ca.DeleteWake?)
    ensures Quiet(s, s')
  {
    assert RoleOk(t, s.threads[t]);
    OnlyCallerQuiet(s, t, s'.threads[t], s');
  }

  lemma CallQuiet(s: State, t: Tid, q: Request, s': State)
    requires RolesOk(s.threads) && CallNext(s, t, q, s')
    ensures Quiet(s, s')
  {
    OnlyCallerQuiet(s, t, Client(q), s');
  }
}
