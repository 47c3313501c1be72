/** Every step of the machine is calm or enqueues one job. */
module CalmSteps {
  import opened Model
  import opened JobCore
  import opened JobMachine
  import opened Ownership
  import opened Invariant
  import opened Queue

  // ---- cores in which nothing starts waiting or running ----

  predicate SettledAt(c: Core, c': Core, o: Oid) {
    o < |c.objs| && o < |c'.objs| &&
    var r, r' := c.objs[o], c'.objs[o];
    && r'.job.id == r.job.id && r'.order == r.order
    && (Registered(c', o) ==> Registered(c, o))
    && (Shown(c', o) && Unfinished(r'.job) ==>
          Shown(c, o) && r'.job.status == r.job.status && r'.cancelled == r.cancelled)
  }

  ghost predicate Settles(c: Core, c': Core) {
    && |c'.objs| == |c.objs| && c.lastSeq <= c'.lastSeq && (c.closing ==> c'.closing)
    && (forall o | 0 <= o < |c.objs| :: SettledAt(c, c', o))
  }

  ghost predicate SameFlight(th: map<Tid, Pc>, th': map<Tid, Pc>) {
    && Flight(th') == Flight(th)
    && PickedJob(th') == PickedJob(th) && (IsParked(th') ==> IsParked(th))
  }

  lemma SettleCalm(s: State, s': State)
    requires Settles(s.core, s'.core) && SameFlight(s.threads, s'.threads)
    ensures Calm(s, s')
  {
    forall o | 0 <= o < |s.core.objs| ensures CalmAt(s, s', o) {
      assert SettledAt(s.core, s'.core, o);
    }
  }

  /** A step of another thread does not move the download worker, except to wake it. */
  lemma WorkerStays(th: map<Tid, Pc>, t: Tid, th': map<Tid, Pc>)
    requires 0 in th && t != 0 && 0 in th' && (th'[0] == th[0] || th'[0] == Woken(th[0]))
    ensures SameFlight(th, th')
  {
  }

  // ---- worker steps ----

  lemma EditSettles(s: State, t: Tid, kind: Kind, o: Oid, w: Work, wk: WorkStep, s': State)
    requires o < |s.core.objs| && OwnStep(s, t, kind, o, w, wk, s') && !wk.Begin? && !wk.Progress?
    requires wk.Finish? ==> Registered(s.core, o)
    ensures Settles(s.core, s'.core)
  {
  }

  lemma BeginCalm(s: State, t: Tid, s': State)
    requires OwnershipOk(s) && WorkNext(s, t, Begin, s')
    ensures Calm(s, s')
  {
    assert RoleOk(t, s.threads[t]);
    StartCalm(s, t, s');
  }

  lemma StartCalm(s: State, t: Tid, s': State)
    requires WorkNext(s, t, Begin, s') && t == 0
    ensures Calm(s, s')
  {
    assert PickedJob(s.threads) == Some(s.threads[0].o) && Flight(s'.threads) == Some(s.threads[0].o);
    forall o | 0 <= o < |s.core.objs| ensures CalmAt(s, s', o) {
    }
  }

  lemma ProgressCalm(s: State, t: Tid, wk: WorkStep, s': State)
    requires OwnershipOk(s) && WorkNext(s, t, wk, s') && wk.Progress?
    ensures Calm(s, s')
  {
    assert RoleOk(t, s.threads[t]);
    ReportCalm(s, t, wk, s');
  }

  lemma ReportCalm(s: State, t: Tid, wk: WorkStep, s': State)
    requires WorkNext(s, t, wk, s') && wk.Progress? && t == 0
    ensures Calm(s, s')
  {
    assert s'.threads[0] == s.threads[0] && Flight(s.threads) == Some(s.threads[0].o);
    forall o | 0 <= o < |s.core.objs| ensures CalmAt(s, s', o) {
    }
  }

  lemma FinishSettles(c: Core, o: Oid, out: Outcome)
    requires Registered(c, o)
    ensures Settles(c, FinishDownload(c, o, out).0)
    ensures var c' := FinishDownload(c, o, out).0; Shown(c', o) && Unfinished(c'.objs[o].job) ==> c.closing
  {
  }

  lemma FinishCalm(s: State, t: Tid, wk: WorkStep, s': State)
    requires OwnershipOk(s) && WorkNext(s, t, wk, s') && wk.Finish?
    ensures Calm(s, s')
  {
    var o := s.threads[t].o;
    assert RoleOk(t, s.threads[t]);
    assert Own(s.threads[t]) == Some(o);
    FinishSettles(s.core, o, wk.out);
    forall p | 0 <= p < |s.core.objs| ensures CalmAt(s, s', p) {
      assert SettledAt(s.core, s'.core, p);
    }
  }

  lemma OwnCalm(s: State, t: Tid, wk: WorkStep, s': State)
    requires OwnershipOk(s) && WorkNext(s, t, wk, s') && s.threads[t].Owns? && !wk.Release?
    ensures Calm(s, s')
  {
    var pc := s.threads[t];
    if wk.Begin? {
      BeginCalm(s, t, s');
    } else if wk.Progress? {
      ProgressCalm(s, t, wk, s');
    } else if wk.Finish? {
      FinishCalm(s, t, wk, s');
    } else {
      assert RoleOk(t, pc);
      EditCalm(s, t, wk, s');
    }
  }

  lemma EditCalm(s: State, t: Tid, wk: WorkStep, s': State)
    requires WorkNext(s, t, wk, s') && s.threads[t].Owns? && RoleOk(t, s.threads[t]) && 0 in s.threads
    requires !wk.Begin? && !wk.Progress? && !wk.Finish? && !wk.Release?
    ensures Calm(s, s')
  {
    var pc := s.threads[t];
    EditSettles(s, t, pc.kind, pc.o, pc.w, wk, s');
    SettleCalm(s, s');
  }

  lemma ReleaseCalm(s: State, t: Tid, s': State)
    requires RolesOk(s.threads) && WorkNext(s, t, Release, s')
    ensures Calm(s, s')
  {
    assert RoleOk(t, s.threads[t]);
    ReleaseSettles(s, t, s');
    SettleCalm(s, s');
  }

  lemma ReleaseSettles(s: State, t: Tid, s': State)
    requires WorkNext(s, t, Release, s') && 0 in s.threads
    ensures Settles(s.core, s'.core) && SameFlight(s.threads, s'.threads)
  {
  }

  lemma LoopCalm(s: State, t: Tid, wk: WorkStep, s': State)
    requires OwnershipOk(s) && WorkNext(s, t, wk, s') && s.threads[t].Loop?
    ensures Calm(s, s')
  {
    assert RoleOk(t, s.threads[t]);
    if t != 0 {
      LoopSettles(s, t, wk, s');
      WorkerStays(s.threads, t, s'.threads);
      SettleCalm(s, s');
    } else {
      DownLoopCalm(s, wk, s');
    }
  }

  lemma LoopSettles(s: State, t: Tid, wk: WorkStep, s': State)
    requires WorkNext(s, t, wk, s') && s.threads[t].Loop?
    ensures Settles(s.core, s'.core)
  {
  }

  lemma DownLoopCalm(s: State, wk: WorkStep, s': State)
    requires WorkNext(s, 0, wk, s') && s.threads[0].Loop? && s.threads[0].kind.Down?
    ensures Calm(s, s')
  {
    LoopSettles(s, 0, wk, s');
    forall o | 0 <= o < |s.core.objs| ensures CalmAt(s, s', o) {
      assert SettledAt(s.core, s'.core, o);
    }
  }

  lemma WorkCalm(s: State, t: Tid, wk: WorkStep, s': State)
    requires OwnershipOk(s) && WorkNext(s, t, wk, s')
    ensures Calm(s, s')
  {
    if s.threads[t].Loop? {
      LoopCalm(s, t, wk, s');
    } else if wk.Release? {
      ReleaseCalm(s, t, s');
    } else {
      OwnCalm(s, t, wk, s');
    }
  }

  lemma SaveCalm(s: State, t: Tid, sv: SaveStep, s': State)
    requires OwnershipOk(s) && SaveNext(s, t, sv, s')
    ensures Calm(s, s')
  {
    assert RoleOk(t, s.threads[t]);
    SaveFlight(s, t, sv, s');
    SettleCalm(s, s');
  }

  lemma SaveFlight(s: State, t: Tid, sv: SaveStep, s': State)
    requires SaveNext(s, t, sv, s') && RoleOk(t, s.threads[t]) && 0 in s.threads
    ensures SameFlight(s.threads, s'.threads) && Settles(s.core, s'.core)
  {
  }

  lemma RemoveCalm(s: State, t: Tid, rm: RemoveStep, s': State)
    requires Inv(s) && RemoveNext(s, t, rm, s')
    ensures Calm(s, s')
  {
    assert RoleOk(t, s.threads[t]);
    RemoveSettles(s, t, rm, s');
    RemoveFlight(s, t, rm, s');
    SettleCalm(s, s');
  }

  lemma RemoveSettles(s: State, t: Tid, rm: RemoveStep, s': State)
    requires RegOk(s.core) && RemoveNext(s, t, rm, s')
    ensures Settles(s.core, s'.core)
  {
  }

  lemma RemoveFlight(s: State, t: Tid, rm: RemoveStep, s': State)
    requires RolesOk(s.threads) && RemoveNext(s, t, rm, s')
    ensures SameFlight(s.threads, s'.threads)
  {
    if t == 0 {
      assert RoleOk(0, s.threads[0]);
    } else {
      assert 0 in s'.threads && (s'.threads[0] == s.threads[0] || s'.threads[0] == Woken(s.threads[0]));
    }
  }

  // ---- caller steps ----

  lemma RequeueEnqueues(s: State, t: Tid, o: Oid, reply: Reply, ch: Tid, s': State)
    requires RolesOk(s.threads) && RegOk(s.core) && t in s.threads && t != 0 && Shown(s.core, o)
    requires s.core.objs[o].job.status.Failed? && !s.core.closing && |UnfinishedIds(s.core)| < MAX_UNFINISHED
    requires RequeueStep(s, t, Requeue(s.core, o), o, reply, ch, s')
    ensures Enqueue(s, o, s')
  {
    assert s'.threads[0] == Woken(s.threads[0]);
  }

  lemma RegisterEnqueues(s: State, id: Id, now: Time, s': State)
    requires RegOk(s.core) && id !in s.core.reg && !s.core.closing && |UnfinishedIds(s.core)| < MAX_UNFINISHED
    requires s'.core == Register(s.core, id, now)
    requires 0 in s.threads && 0 in s'.threads && s'.threads[0] == Woken(s.threads[0])
    ensures Enqueue(s, |s.core.objs|, s')
  {
  }

  /** The job a caller step enqueues, if any. */
  function Enqueued(s: State, t: Tid, ca: CallerStep): Option<Oid>
    requires RegOk(s.core) && t in s.threads && s.threads[t].Client?
  {
    var q := s.threads[t].q;
    if ca.SubmitOnce? && q.Submitting? then
      var out := Submit(s.core, q.id, ca.now, ca.ok).1;
      if out.SubmitRequeued? || out.SubmitNew? then Some(out.o) else None
    else if ca.RetryOnce? && q.Retrying? then
      var out := Retry(s.core, q.id).1;
      if out.RetryDone? then Some(out.o) else None
    else None
  }

  lemma SubmitQueue(s: State, t: Tid, ca: CallerStep, s': State)
    requires OwnershipOk(s) && CallerNext(s, t, ca, s') && ca.SubmitOnce?
    ensures match Enqueued(s, t, ca) case None => Calm(s, s') case Some(o) => Enqueue(s, o, s')
  {
    assert RoleOk(t, s.threads[t]);
    var id := s.threads[t].q.id;
    var out := Submit(s.core, id, ca.now, ca.ok).1;
    if out.SubmitRequeued? {
      RequeueEnqueues(s, t, out.o, Submitted(out), ca.ch, s');
    } else if out.SubmitNew? {
      assert s'.threads[0] == Woken(s.threads[0]);
      RegisterEnqueues(s, id, ca.now, s');
    } else {
      SubmitSettles(s, t, ca, s');
    }
  }

  lemma SubmitSettles(s: State, t: Tid, ca: CallerStep, s': State)
    requires CallerNext(s, t, ca, s') && ca.SubmitOnce? && t != 0 && 0 in s.threads && Enqueued(s, t, ca).None?
    ensures Calm(s, s')
  {
    WorkerStays(s.threads, t, s'.threads);
    SettleCalm(s, s');
  }

  lemma RetryQueue(s: State, t: Tid, ca: CallerStep, s': State)
    requires OwnershipOk(s) && CallerNext(s, t, ca, s') && ca.RetryOnce?
    ensures match Enqueued(s, t, ca) case None => Calm(s, s') case Some(o) => Enqueue(s, o, s')
  {
    assert RoleOk(t, s.threads[t]);
    var out := Retry(s.core, s.threads[t].q.id).1;
    if out.RetryDone? {
      RequeueEnqueues(s, t, out.o, Retried(out), ca.ch, s');
    } else {
      WorkerStays(s.threads, t, s'.threads);
      SettleCalm(s, s');
    }
  }

  lemma DeleteSettles(c: Core, id: Id, a: Aid)
    requires RegOk(c)
    ensures Settles(c, Delete(c, id, a).0)
  {
  }

  lemma ListSettles(c: Core, o: Oid, size: Option<int>)
    requires o < |c.objs|
    ensures Settles(c, ListCheck(c, o, size).0)
  {
  }

  lemma InterruptSettles(c: Core)
    ensures Settles(c, Interrupt(c))
  {
  }

  lemma CallerSettles(s: State, t: Tid, ca: CallerStep, s': State)
    requires CallerNext(s, t, ca, s') && !ca.SubmitOnce? && !ca.RetryOnce?
    ensures Settles(s.core, s'.core)
  {
    match ca
    case DeleteOnce => DeleteSettles(s.core, s.threads[t].q.id, |s.guard.atts|);
    case ListOne(size, _) =>
      if s.threads[t].q.todo != [] { ListSettles(s.core, s.threads[t].q.todo[0], size); }
    case CloseEnd(_) => InterruptSettles(s.core);
    case _ =>
  }

  /** Putting a job into the queue and closing the manager wake everybody. */
  predicate Wakes(s: State, t: Tid, ca: CallerStep)
    requires RegOk(s.core) && t in s.threads && s.threads[t].Client?
  {
    Enqueued(s, t, ca).Some? || (ca.CloseBegin? && !s.core.closing)
  }

  lemma SubmitMoves(s: State, t: Tid, ca: CallerStep, s': State, w: Tid)
    requires CallerNext(s, t, ca, s') && ca.SubmitOnce? && t > 2 && w <= 2 && w in s.threads
    ensures w in s'.threads && s'.threads[w] == if Wakes(s, t, ca) then Woken(s.threads[w]) else s.threads[w]
  {
  }

  lemma RetryMoves(s: State, t: Tid, ca: CallerStep, s': State, w: Tid)
    requires CallerNext(s, t, ca, s') && ca.RetryOnce? && t > 2 && w <= 2 && w in s.threads
    ensures w in s'.threads && s'.threads[w] == if Wakes(s, t, ca) then Woken(s.threads[w]) else s.threads[w]
  {
  }

  /** No caller step moves a worker, except to wake it. */
  lemma CallerMoves(s: State, t: Tid, ca: CallerStep, s': State, w: Tid)
    requires CallerNext(s, t, ca, s') && t > 2 && w <= 2 && w in s.threads
    ensures w in s'.threads && s'.threads[w] == if Wakes(s, t, ca) then Woken(s.threads[w]) else s.threads[w]
  {
    if ca.SubmitOnce? {
      SubmitMoves(s, t, ca, s', w);
    } else if ca.RetryOnce? {
      RetryMoves(s, t, ca, s', w);
    }
  }

  lemma CallerFlight(s: State, t: Tid, ca: CallerStep, s': State)
    requires RolesOk(s.threads) && CallerNext(s, t, ca, s') && !ca.SubmitOnce? && !ca.RetryOnce?
    ensures SameFlight(s.threads, s'.threads)
  {
    assert RoleOk(t, s.threads[t]);
    CallerMoves(s, t, ca, s', 0);
    WorkerStays(s.threads, t, s'.threads);
  }

  lemma CallerQueue(s: State, t: Tid, ca: CallerStep, s': State)
    requires OwnershipOk(s) && CallerNext(s, t, ca, s')
    ensures match Enqueued(s, t, ca) case None => Calm(s, s') case Some(o) => Enqueue(s, o, s')
  {
    if ca.SubmitOnce? {
      SubmitQueue(s, t, ca, s');
    } else if ca.RetryOnce? {
      RetryQueue(s, t, ca, s');
    } else {
      CallerSettles(s, t, ca, s');
      CallerFlight(s, t, ca, s');
      SettleCalm(s, s');
    }
  }
}
