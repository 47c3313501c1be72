/**
  Exactly when the number of unfinished jobs passes the limit. Admission itself never does it;
  the download worker does, by starting or reporting on a job that had stopped counting after it
  was picked.
 */
module Admission {
  import opened Model
  import opened JobCore
  import opened JobMachine
  import opened Ownership
  import opened Invariant
  import opened RegistrySteps
  import opened Queue
  import opened CalmSteps

  /** The action starts, or reports on, a shown job that does not count. */
  predicate Revives(s: State, a: Action) {
    && a.WorkAct? && a.t in s.threads && s.threads[a.t].Owns? && (a.wk.Begin? || a.wk.Progress?)
    && Shown(s.core, s.threads[a.t].o) && !Unfinished(s.core.objs[s.threads[a.t].o].job)
  }

  /** The count rises by one exactly if the job is shown and had stopped counting. */
  lemma MoveRevives(c: Core, o: Oid, status: Status)
    requires RegOk(c) && o < |c.objs| && InPipeline(status)
    ensures var c' := SetObj(c, o, Put(c.objs[o], c.objs[o].job.(status := status)));
      |UnfinishedIds(c')| == |UnfinishedIds(c)| + if Shown(c, o) && !Unfinished(c.objs[o].job) then 1 else 0
  {
    var id := c.objs[o].job.id;
    var c' := SetObj(c, o, Put(c.objs[o], c.objs[o].job.(status := status)));
    forall i
      ensures i in UnfinishedIds(c') <==> i in UnfinishedIds(c) || (i == id && Shown(c, o))
    {
    }
    assert UnfinishedIds(c') == if Shown(c, o) then UnfinishedIds(c) + {id} else UnfinishedIds(c);
  }

  lemma StartRevives(c: Core, o: Oid)
    requires RegOk(c) && o < |c.objs|
    ensures |UnfinishedIds(BeginDownload(c, o))| ==
      |UnfinishedIds(c)| + if Shown(c, o) && !Unfinished(c.objs[o].job) then 1 else 0
  {
    MoveRevives(c, o, Downloading);
  }

  lemma ReportRevives(c: Core, o: Oid, stage: Stage)
    requires RegOk(c) && Registered(c, o) && PipelineStage(stage)
    ensures |UnfinishedIds(Report(c, o, stage).0)| ==
      |UnfinishedIds(c)| + if Shown(c, o) && !Unfinished(c.objs[o].job) then 1 else 0
  {
    MoveRevives(c, o, StatusForStage(stage));
  }

  lemma SettledCount(c: Core, c': Core)
    requires RegOk(c') && Settles(c, c')
    ensures |UnfinishedIds(c')| <= |UnfinishedIds(c)|
  {
    forall id | id in UnfinishedIds(c') ensures id in UnfinishedIds(c) {
      assert SettledAt(c, c', c'.reg[id]) && Registered(c', c'.reg[id]);
    }
    SubsetSize(UnfinishedIds(c'), UnfinishedIds(c));
  }

  lemma EnqueueCount(s: State, o: Oid, s': State)
    requires RegOk(s'.core) && Enqueue(s, o, s')
    ensures |UnfinishedIds(s'.core)| <= MAX_UNFINISHED
  {
    var id := s'.core.objs[o].job.id;
    forall i | i in UnfinishedIds(s'.core) ensures i in UnfinishedIds(s.core) + {id} {
      var p := s'.core.reg[i];
      assert p != o ==> Registered(s'.core, p) && s'.core.objs[p] == s.core.objs[p];
    }
    SubsetSize(UnfinishedIds(s'.core), UnfinishedIds(s.core) + {id});
  }

  lemma WorkCount(s: State, t: Tid, wk: WorkStep, s': State)
    requires OwnershipOk(s) && RegOk(s'.core) && WorkNext(s, t, wk, s')
    ensures if Revives(s, WorkAct(t, wk)) then |UnfinishedIds(s'.core)| == |UnfinishedIds(s.core)| + 1
            else |UnfinishedIds(s'.core)| <= |UnfinishedIds(s.core)|
  {
    assert RoleOk(t, s.threads[t]);
    assert Own(s.threads[t]).Some? ==> Registered(s.core, Own(s.threads[t]).value);
    if wk.Begin? {
      StartRevives(s.core, s.threads[t].o);
    } else if wk.Progress? {
      ReportRevives(s.core, s.threads[t].o, wk.stage);
    } else {
      OtherWorkSettles(s, t, wk, s');
      SettledCount(s.core, s'.core);
    }
  }

  lemma OtherWorkSettles(s: State, t: Tid, wk: WorkStep, s': State)
    requires WorkNext(s, t, wk, s') && !wk.Begin? && !wk.Progress?
    requires Own(s.threads[t]).Some? ==> Registered(s.core, Own(s.threads[t]).value)
    ensures Settles(s.core, s'.core)
  {
    var pc := s.threads[t];
    if pc.Owns? && !wk.Release? {
      EditSettles(s, t, pc.kind, pc.o, pc.w, wk, s');
    }
  }

  lemma CallerCount(s: State, t: Tid, ca: CallerStep, s': State)
    requires OwnershipOk(s) && RegOk(s'.core) && CallerNext(s, t, ca, s')
    ensures |UnfinishedIds(s'.core)| <= |UnfinishedIds(s.core)| || |UnfinishedIds(s'.core)| <= MAX_UNFINISHED
  {
    if Enqueued(s, t, ca).Some? {
      CallerQueue(s, t, ca, s');
      EnqueueCount(s, Enqueued(s, t, ca).value, s');
    } else {
      if !ca.SubmitOnce? && !ca.RetryOnce? {
        CallerSettles(s, t, ca, s');
      }
      SettledCount(s.core, s'.core);
    }
  }

  /** Only a revived job takes the count beyond the limit or what it was; it always adds one. */
  lemma StepCount(s: State, a: Action, s': State)
    requires OwnershipOk(s) && RegOk(s'.core) && Step(s, a, s')
    ensures if Revives(s, a) then |UnfinishedIds(s'.core)| == |UnfinishedIds(s.core)| + 1
            else |UnfinishedIds(s'.core)| <= |UnfinishedIds(s.core)| || |UnfinishedIds(s'.core)| <= MAX_UNFINISHED
  {
    match a
    case WorkAct(t, wk) => WorkCount(s, t, wk, s');
    case SaveAct(_, _) =>
    case RemoveAct(t, rm) =>
      RemoveSettles(s, t, rm, s');
      SettledCount(s.core, s'.core);
    case CallerAct(t, ca) => CallerCount(s, t, ca, s');
    case Call(_, _) =>
  }

  /**
    The limit of 16 is passed exactly when 16 jobs count and the download worker starts, or
    reports on, a job that a failure had taken out of the count after it was picked.
   */
  lemma StepAboveLimit(s: State, a: Action, s': State)
    requires Inv(s) && |UnfinishedIds(s.core)| <= MAX_UNFINISHED && Step(s, a, s')
    ensures |UnfinishedIds(s'.core)| > MAX_UNFINISHED <==> |UnfinishedIds(s.core)| == MAX_UNFINISHED && Revives(s, a)
  {
    StepKeeps(s, a, s');
    RegistryOk(s');
    StepCount(s, a, s');
  }
}
