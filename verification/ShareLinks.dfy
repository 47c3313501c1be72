/**
  Share links over the lives of the server: a link opens only the run of the video it was issued
  for, and never again once that run was deleted, whatever restarts lie in between.
 */
module ShareLinks {
  import opened Model
  import opened DiskStore
  import opened JobCore
  import opened JobMachine
  import opened Invariant
  import opened RegistrySteps
  import opened Runs
  import opened Deletion
  import opened Recovery
  import opened Contents
  import opened Staleness
  import opened Server
  import LinkStore
  import LinkRuns
  import TokenMap

  // ---- records carry their job's creation time ----

  lemma RecordStaysDated(s: State, act: Action, s': State, id: Id)
    requires Inv(s) && Inv(s') && RecordsDated(s) && Step(s, act, s') && id in s'.shelf.disk && id in s'.core.reg
    ensures RecordDated(s', id)
  {
    var o := s'.core.reg[id];
    assert RecordOk(s', id);
    if o < |s.core.objs| {
      RegisteredOnce(s, act, s', o);
      StepDated(s, act, s');
      RecordsComeFrom(s, act, s', id);
      assert id in s.shelf.disk ==> RecordDated(s, id);
      assert act.SaveAct? && act.t in s.threads ==> PcOk(s, s.threads[act.t]) && WriteDated(s, s.threads[act.t]);
    } else {
      NewIsStored(s, act, s', o);
    }
  }

  lemma WriteStaysDated(s: State, act: Action, s': State, u: Tid)
    requires PcsOk(s) && RecordsDated(s) && Step(s, act, s') && u in s'.threads
    ensures WriteDated(s', s'.threads[u])
  {
    var pc' := s'.threads[u];
    if pc'.Storing? && pc'.at.Writing? {
      WritesComeFrom(s, act, s', u);
      StepDated(s, act, s');
      assert u in s.threads ==> WriteDated(s, s.threads[u]) && PcOk(s, s.threads[u]);
    }
  }

  lemma RecordsStayDated(s: State, act: Action, s': State)
    requires Inv(s) && Inv(s') && RecordsDated(s) && Step(s, act, s')
    ensures RecordsDated(s')
  {
    forall id | id in s'.shelf.disk ensures RecordDated(s', id) {
      if id in s'.core.reg {
        RecordStaysDated(s, act, s', id);
      }
    }
    forall u | u in s'.threads ensures WriteDated(s', s'.threads[u]) {
      WriteStaysDated(s, act, s', u);
    }
  }

  // ---- births are only added ----

  lemma BornGrows(w: Web, a: WebAct, w': Web)
    requires WebStep(w, a, w')
    ensures w.tale.born <= w'.tale.born
  {
  }

  /** What named a run before still does. */
  lemma VisitKept(tale: Tale, tale': Tale, visit: Visit)
    requires VisitOk(tale, visit) && tale.born <= tale'.born && tale.runs <= tale'.runs
    ensures VisitOk(tale', visit)
  {
  }

  lemma LinkKept(tale: Tale, tale': Tale, link: LinkStore.Link)
    requires LinkOk(tale, link) && tale.born <= tale'.born && tale'.issued == tale.issued
    ensures LinkOk(tale', link)
  {
  }

  // ---- every step keeps the names right ----

  lemma ManageRuns(c: Core, tale: Tale, c': Core)
    requires RunsOk(c, tale) && Dated(c, c')
    ensures RunsOk(c', AfterManage(tale, c, c'))
  {
  }

  lemma ManageOk(w: Web, act: Action, w': Web)
    requires TaleOk(w) && Inv(w.m) && Inv(w'.m) && WebStep(w, Manage(act), w')
    ensures TaleOk(w')
  {
    StepDated(w.m, act, w'.m);
    ManageRuns(w.m.core, w.tale, w'.m.core);
    RecordsStayDated(w.m, act, w'.m);
    forall link | link in w'.tale.issued ensures LinkOk(w'.tale, link) {
      LinkKept(w.tale, w'.tale, link);
    }
    forall v | v in w'.visits ensures VisitOk(w'.tale, w'.visits[v]) {
      VisitKept(w.tale, w'.tale, w.visits[v]);
    }
  }

  /** What a link operation leaves in the map was there, or is the link just issued. */
  lemma LinksComeFrom(st: LinkStore.St, op: LinkRuns.Op, issued: map<LinkStore.Link, nat>)
    requires !op.Restart? && LinksKnown(st, issued)
    requires op.Share? ==> LinkStore.NewLink(op.hash, op.video, op.jobAt, op.now) in issued
    ensures LinksKnown(LinkRuns.Apply(st, op), issued)
  {
  }

  /** A restart of the link store, as LinkRuns has it, is among those the server model allows. */
  lemma RestartIsKnown(st: LinkStore.St, op: LinkRuns.Op, issued: map<LinkStore.Link, nat>)
    requires op.Restart? && LinkRuns.Possible(st, op) && LinksKnown(st, issued)
    ensures LinksKnown(LinkRuns.Apply(st, op), issued)
  {
  }

  lemma IssueOk(w: Web, v: nat, op: LinkRuns.Op, w': Web)
    requires TaleOk(w) && WebStep(w, ShareIssue(v, op), w')
    ensures TaleOk(w')
  {
    var link := LinkStore.NewLink(op.hash, op.video, op.jobAt, op.now);
    assert VisitOk(w.tale, w.visits[v]);
    LinksComeFrom(w.links, op, w'.tale.issued);
    forall l | l in w'.tale.issued ensures LinkOk(w'.tale, l) {
      assert l != link ==> LinkOk(w.tale, l);
    }
    forall u | u in w'.visits ensures VisitOk(w'.tale, w'.visits[u]) {
      VisitKept(w.tale, w'.tale, w.visits[u]);
    }
  }

  lemma TendOk(w: Web, op: LinkRuns.Op, w': Web)
    requires TaleOk(w) && WebStep(w, Tend(op), w')
    ensures TaleOk(w')
  {
    LinksComeFrom(w.links, op, w.tale.issued);
  }

  lemma ReadOk(w: Web, v: nat, video: Id, w': Web)
    requires RegOk(w.m.core) && TaleOk(w) && WebStep(w, ShareGet(v, video), w')
    ensures TaleOk(w')
  {
  }

  lemma LookupOk(w: Web, v: nat, now: Time, hash: TokenMap.Hash, w': Web)
    requires TaleOk(w) && WebStep(w, MediaLookup(v, now, hash), w')
    ensures TaleOk(w')
  {
    assert LinkOk(w.tale, w.links.links[hash]);
  }

  /** The check compares with the one registered run: only that run of the video has its time. */
  lemma GetOk(w: Web, v: nat, w': Web)
    requires RegOk(w.m.core) && TaleOk(w) && WebStep(w, MediaGet(v), w') && TimesDiffer(w.tale.born)
    ensures TaleOk(w')
  {
    var visit := w.visits[v];
    assert VisitOk(w.tale, visit);
    if Opens(w.m.core, visit.video, visit.jobAt) {
      SameRun(w.tale.born, w.tale.runs[w.m.core.reg[visit.video]], visit.run, visit.video, visit.jobAt);
    }
  }

  lemma SameRun(born: seq<Birth>, r: nat, q: nat, video: Id, at: Time)
    requires TimesDiffer(born) && IsRun(born, r, video, at) && IsRun(born, q, video, at)
    ensures r == q
  {
  }

  /** A start gives each job it finds a run of its own. */
  lemma BootRuns(jobs: seq<Job>, sizes: map<Id, Option<int>>, took: seq<Option<nat>>, c: Core, tale: Tale, tale': Tale)
    requires HoldsScanned(c, jobs, sizes) && Distinct(Ids(jobs)) && AllTakenUp(tale, jobs, took, tale')
    ensures RunsOk(c, tale')
  {
    forall o | 0 <= o < |jobs|
      ensures IsRun(tale'.born, tale'.runs[o], c.objs[o].job.id, c.objs[o].job.createdAt)
    {
      assert TakenUp(tale.born, jobs[o], took[o], tale'.born, tale'.runs[o]);
    }
    forall o, p | 0 <= o < p < |jobs| ensures tale'.runs[o] != tale'.runs[p] {
      assert Ids(jobs)[o] != Ids(jobs)[p];
      assert TakenUp(tale.born, jobs[o], took[o], tale'.born, tale'.runs[o]);
      assert TakenUp(tale.born, jobs[p], took[p], tale'.born, tale'.runs[p]);
    }
  }

  lemma ScannedDistinct(es: seq<Entry>, clock: seq<Time>, jobs: seq<Job>)
    requires DistinctEntries(es) && |clock| == |es| && ScanOf(Entries(es), clock) == Some(jobs)
    ensures Distinct(Ids(jobs))
  {
    ScanNames(es, clock, |es|);
    NamesDistinct(es, |es|);
  }

  lemma BootRecordsDated(s: State, jobs: seq<Job>, sizes: map<Id, Option<int>>, sound: set<Id>)
    requires HoldsScanned(s.core, jobs, sizes) && ShelfOf(s.shelf, s.core, jobs, sound) && s.threads == WORKERS
    ensures RecordsDated(s)
  {
  }

  lemma BootOk(w: Web, a: WebAct, w': Web)
    requires a.Boot? && TaleOk(w) && BootStep(w, a, w')
    ensures TaleOk(w')
  {
    var jobs := ScanOf(Entries(a.es), a.clock).value;
    RecoverHoldsScanned(jobs, a.sizes);
    ScannedDistinct(a.es, a.clock, jobs);
    BootRuns(jobs, a.sizes, a.took, w'.m.core, w.tale, w'.tale);
    BootRecordsDated(w'.m, jobs, a.sizes, SoundIds(a.es));
    forall link | link in w'.tale.issued ensures LinkOk(w'.tale, link) {
      LinkKept(w.tale, w'.tale, link);
    }
  }

  /** Every step of the server keeps it: jobs, links and requests name the right runs. */
  lemma WebStepOk(w: Web, a: WebAct, w': Web)
    requires Inv(w.m) && Inv(w'.m) && TaleOk(w) && WebStep(w, a, w') && TimesDiffer(w.tale.born)
    ensures TaleOk(w')
  {
    RegistryOk(w.m);
    match a
    case Manage(act) => ManageOk(w, act, w');
    case ShareGet(v, video) => ReadOk(w, v, video, w');
    case ShareIssue(v, op) => IssueOk(w, v, op, w');
    case MediaLookup(v, now, hash) => LookupOk(w, v, now, hash, w');
    case MediaGet(v) => GetOk(w, v, w');
    case Tend(op) => TendOk(w, op, w');
    case Boot(_, _, _, _) => BootOk(w, a, w');
  }

  lemma TaleMoves(ws: seq<Web>, acts: seq<WebAct>, k: nat)
    requires WebPath(ws, acts) && Inv(ws[0].m) && k < |acts| && TaleOk(ws[k]) && TimesDiffer(ws[k].tale.born)
    ensures TaleOk(ws[k + 1])
  {
    ManagerInv(ws, acts, k);
    ManagerInv(ws, acts, k + 1);
    assert WebMoves(ws, acts, k);
    WebStepOk(ws[k], acts[k], ws[k + 1]);
  }

  lemma BornMoves(ws: seq<Web>, acts: seq<WebAct>, k: nat)
    requires WebPath(ws, acts) && k < |acts|
    ensures ws[k].tale.born <= ws[k + 1].tale.born
  {
    assert WebMoves(ws, acts, k);
    BornGrows(ws[k], acts[k], ws[k + 1]);
  }

  lemma TimesDiffered(ws: seq<Web>, acts: seq<WebAct>, k: nat)
    requires WebPath(ws, acts) && k < |acts| && TimesDiffer(ws[k + 1].tale.born)
    ensures TimesDiffer(ws[k].tale.born)
  {
    BornMoves(ws, acts, k);
    assert ws[k].tale.born == ws[k + 1].tale.born[..|ws[k].tale.born|];
  }

  ghost function TaleFlags(ws: seq<Web>): (ok: seq<bool>)
    ensures |ok| == |ws| && forall k | 0 <= k < |ws| :: ok[k] == (TimesDiffer(ws[k].tale.born) ==> TaleOk(ws[k]))
  {
    seq(|ws|, k requires 0 <= k < |ws| => TimesDiffer(ws[k].tale.born) ==> TaleOk(ws[k]))
  }

  lemma TaleKept(ws: seq<Web>, acts: seq<WebAct>, k: nat)
    requires WebPath(ws, acts) && Inv(ws[0].m) && k < |acts|
    ensures Carries(TaleFlags(ws), k)
  {
    if TimesDiffer(ws[k + 1].tale.born) && (TimesDiffer(ws[k].tale.born) ==> TaleOk(ws[k])) {
      TimesDiffered(ws, acts, k);
      TaleMoves(ws, acts, k);
    }
  }

  lemma TaleInv(ws: seq<Web>, acts: seq<WebAct>, k: nat)
    requires WebRun(ws, acts) && k < |ws| && TimesDiffer(ws[k].tale.born)
    ensures TaleOk(ws[k])
  {
    InitInv(ws[0].m);
    var ok := TaleFlags(ws);
    forall i | 0 <= i < k ensures Carries(ok, i) {
      TaleKept(ws, acts, i);
    }
    Chain(ok, 0, k);
  }

  // ---- a link opens its run ----

  /** A request that the check let through goes to the very run its link was issued for. */
  lemma LinkOpensItsRun(ws: seq<Web>, acts: seq<WebAct>, k: nat, v: nat)
    requires WebRun(ws, acts) && k < |ws| && TimesDiffer(ws[k].tale.born)
    requires v in ws[k].visits && ws[k].visits[v].MediaPassed?
    ensures ws[k].visits[v].o < |ws[k].tale.runs| && ws[k].tale.runs[ws[k].visits[v].o] == ws[k].visits[v].run
  {
    TaleInv(ws, acts, k);
    assert VisitOk(ws[k].tale, ws[k].visits[v]);
  }

  /** Object o is the registered, ready job of this run. */
  predicate RunIsReady(w: Web, o: Oid, run: nat) {
    Registered(w.m.core, o) && o < |w.tale.runs| && w.tale.runs[o] == run && w.m.core.objs[o].job.status.Ready?
  }

  /** The check lets a request through exactly if its link's run is a registered, ready job. */
  lemma OpensExactlyItsRun(ws: seq<Web>, acts: seq<WebAct>, k: nat, v: nat)
    requires WebRun(ws, acts) && k < |acts| && TimesDiffer(ws[k].tale.born)
    requires acts[k] == MediaGet(v) && v in ws[k].visits
    ensures v in ws[k + 1].visits <==> exists o :: RunIsReady(ws[k], o, ws[k].visits[v].run)
  {
    TaleInv(ws, acts, k);
    InitInv(ws[0].m);
    ManagerInv(ws, acts, k);
    RegistryOk(ws[k].m);
    assert WebMoves(ws, acts, k);
    CheckIsExact(ws[k], v, ws[k + 1]);
  }

  lemma CheckIsExact(w: Web, v: nat, w': Web)
    requires RegOk(w.m.core) && TaleOk(w) && TimesDiffer(w.tale.born) && WebStep(w, MediaGet(v), w')
    ensures v in w'.visits <==> exists o :: RunIsReady(w, o, w.visits[v].run)
  {
    var visit := w.visits[v];
    assert VisitOk(w.tale, visit);
    if Opens(w.m.core, visit.video, visit.jobAt) {
      var o := w.m.core.reg[visit.video];
      SameRun(w.tale.born, w.tale.runs[o], visit.run, visit.video, visit.jobAt);
      assert RunIsReady(w, o, visit.run);
    }
  }

  // ---- a dead run stays dead ----

  /** No registered job is this run. */
  ghost predicate Dead(w: Web, run: nat) {
    && run < |w.tale.born|
    && (forall o | 0 <= o < |w.tale.runs| && Registered(w.m.core, o) :: w.tale.runs[o] != run)
  }

  lemma OnlyNewRegistered(s: State, act: Action, s': State)
    requires Inv(s) && Step(s, act, s')
    ensures forall o | 0 <= o < |s.core.objs| && Registered(s'.core, o) :: Registered(s.core, o)
  {
    forall o | 0 <= o < |s.core.objs| && Registered(s'.core, o) ensures Registered(s.core, o) {
      RegisteredOnce(s, act, s', o);
    }
  }

  lemma ManageDead(w: Web, act: Action, w': Web, run: nat)
    requires Inv(w.m) && RunsOk(w.m.core, w.tale) && WebStep(w, Manage(act), w') && Dead(w, run)
    ensures Dead(w', run)
  {
    StepDated(w.m, act, w'.m);
    OnlyNewRegistered(w.m, act, w'.m);
    NewRunsOnly(w, w', run);
  }

  lemma NewRunsOnly(w: Web, w': Web, run: nat)
    requires RunsOk(w.m.core, w.tale) && Dated(w.m.core, w'.m.core) && Dead(w, run)
    requires w'.tale == AfterManage(w.tale, w.m.core, w'.m.core)
    requires forall o | 0 <= o < |w.m.core.objs| && Registered(w'.m.core, o) :: Registered(w.m.core, o)
    ensures Dead(w', run)
  {
  }

  lemma BootDead(w: Web, a: WebAct, w': Web, run: nat)
    requires a.Boot? && BootStep(w, a, w') && Dead(w, run)
    ensures Dead(w', run) <==> !BringsBack(a, run)
  {
    var jobs := ScanOf(Entries(a.es), a.clock).value;
    RecoverHoldsScanned(jobs, a.sizes);
    BootInit(w, a, w');
    forall o | 0 <= o < |jobs| ensures (w'.tale.runs[o] == run) == (a.took[o] == Some(run)) {
      assert TakenUp(w.tale.born, jobs[o], a.took[o], w'.tale.born, w'.tale.runs[o]);
    }
    if BringsBack(a, run) {
      var o :| 0 <= o < |a.took| && a.took[o] == Some(run);
      assert Registered(w'.m.core, o);
    }
  }

  /** A dead run comes back exactly when a start finds a record of it. */
  lemma DeadMoves(w: Web, a: WebAct, w': Web, run: nat)
    requires Inv(w.m) && RunsOk(w.m.core, w.tale) && WebStep(w, a, w') && Dead(w, run)
    ensures Dead(w', run) <==> !BringsBack(a, run)
  {
    if a.Manage? {
      ManageDead(w, a.act, w', run);
    } else if a.Boot? {
      BootDead(w, a, w', run);
    }
  }

  /** A start that finds the store as the server left it brings no dead run back. */
  lemma NothingComesBack(w: Web, a: WebAct, w': Web, run: nat)
    requires Inv(w.m) && TaleOk(w) && TimesDiffer(w.tale.born) && WebStep(w, a, w') && Dead(w, run)
    requires FoundAsLeft(w, a)
    ensures !BringsBack(a, run)
  {
    if BringsBack(a, run) {
      var i :| 0 <= i < |a.took| && a.took[i] == Some(run);
      var j := ScanOf(Entries(a.es), a.clock).value[i];
      assert TakenUp(w.tale.born, j, a.took[i], w'.tale.born, w'.tale.runs[i]);
      RecordIsAlive(w, j.id);
      SameRun(w.tale.born, run, w.tale.runs[w.m.core.reg[j.id]], j.id, j.createdAt);
      assert false;
    }
  }

  /** A record no failed Submit left is of the registered job's run. */
  lemma RecordIsAlive(w: Web, id: Id)
    requires Inv(w.m) && TaleOk(w) && id in w.m.shelf.disk && id !in w.m.shelf.leftover
    ensures var rec := w.m.shelf.disk[id];
      && rec.owner < |w.tale.runs| && Registered(w.m.core, rec.owner) && rec.job.id == id
      && id in w.m.core.reg && w.m.core.reg[id] == rec.owner
      && IsRun(w.tale.born, w.tale.runs[rec.owner], id, rec.job.createdAt)
  {
    assert RecordOk(w.m, id) && RecordDated(w.m, id);
  }

  /** Not a start that finds a record of the run which the server had not left there. */
  ghost predicate NotBack(w: Web, a: WebAct, run: nat) {
    FoundAsLeft(w, a) || !BringsBack(a, run)
  }

  ghost predicate NeverBack(ws: seq<Web>, acts: seq<WebAct>, i: nat, j: nat, run: nat)
    requires j <= |acts| < |ws|
  {
    forall k | i <= k < j :: NotBack(ws[k], acts[k], run)
  }

  lemma PathDeadMoves(ws: seq<Web>, acts: seq<WebAct>, k: nat, run: nat)
    requires WebRun(ws, acts) && k < |acts| && TimesDiffer(ws[k].tale.born)
    requires Dead(ws[k], run) && NotBack(ws[k], acts[k], run)
    ensures Dead(ws[k + 1], run)
  {
    TaleInv(ws, acts, k);
    InitInv(ws[0].m);
    ManagerInv(ws, acts, k);
    assert WebMoves(ws, acts, k);
    StepDead(ws[k], acts[k], ws[k + 1], run);
  }

  lemma StepDead(w: Web, a: WebAct, w': Web, run: nat)
    requires Inv(w.m) && TaleOk(w) && TimesDiffer(w.tale.born) && WebStep(w, a, w')
    requires Dead(w, run) && NotBack(w, a, run)
    ensures Dead(w', run)
  {
    DeadMoves(w, a, w', run);
    if FoundAsLeft(w, a) {
      NothingComesBack(w, a, w', run);
    }
  }

  ghost function DeadFlags(ws: seq<Web>, run: nat): (ok: seq<bool>)
    ensures |ok| == |ws| && forall k | 0 <= k < |ws| :: ok[k] == (TimesDiffer(ws[k].tale.born) ==> Dead(ws[k], run))
  {
    seq(|ws|, k requires 0 <= k < |ws| => TimesDiffer(ws[k].tale.born) ==> Dead(ws[k], run))
  }

  lemma DeadKept(ws: seq<Web>, acts: seq<WebAct>, i: nat, j: nat, k: nat, run: nat)
    requires WebRun(ws, acts) && i <= k < j < |ws| && NeverBack(ws, acts, i, j, run)
    ensures Carries(DeadFlags(ws, run), k)
  {
    assert NotBack(ws[k], acts[k], run);
    if TimesDiffer(ws[k + 1].tale.born) && (TimesDiffer(ws[k].tale.born) ==> Dead(ws[k], run)) {
      TimesDiffered(ws, acts, k);
      PathDeadMoves(ws, acts, k, run);
    }
  }

  lemma DeadStays(ws: seq<Web>, acts: seq<WebAct>, i: nat, j: nat, run: nat)
    requires WebRun(ws, acts) && i <= j < |ws| && TimesDiffer(ws[j].tale.born)
    requires Dead(ws[i], run) && NeverBack(ws, acts, i, j, run)
    ensures Dead(ws[j], run)
  {
    var ok := DeadFlags(ws, run);
    forall k | i <= k < j ensures Carries(ok, k) {
      DeadKept(ws, acts, i, j, k, run);
    }
    Chain(ok, i, j);
  }

  // ---- a run that is brought back ----

  const VIDEO := "aaaaaaaaaaa"
  const BACK := Job(VIDEO, "", 0.0, Ready, 5, 1, "")
  const OLD_LINK := LinkStore.NewLink("hash", VIDEO, 1, 1)
  const FOUND := [Entry(VIDEO, true, File(Encode(BACK)))]

  /** No job, but a link on file from a run that is gone. */
  const AFTER_DELETE := Web(
    State(NOTHING, WORKERS, Guard(map[], map[], [], false), Shelf(map[], {}, {})),
    LinkStore.St(map[], Some(map["hash" := OLD_LINK])), map[],
    Tale([Birth(VIDEO, 1)], [], map[OLD_LINK := 0]))

  /** A start that finds the run's record all the same. */
  const BROUGHT_BACK := Web(
    State(Core([RecoveredRec(BACK, Some(5), 1)], map[VIDEO := 0], 1, false), WORKERS, Guard(map[], map[], [], false),
          Shelf(map[VIDEO := Stored(0, 0, BACK)], {}, {})),
    LinkStore.St(map["hash" := OLD_LINK], Some(map["hash" := OLD_LINK])), map[],
    Tale([Birth(VIDEO, 1)], [0], map[OLD_LINK := 0]))

  const LOOKED := BROUGHT_BACK.(visits := map[0 := MediaLooked(VIDEO, 1, 0)])

  lemma BootBringsBack(a: WebAct)
    requires a == Boot(FOUND, [0], map[VIDEO := Some(5)], [Some(0)])
    ensures WebStep(AFTER_DELETE, a, BROUGHT_BACK) && BringsBack(a, 0)
  {
    FoundIsBack();
    RecoveredIsBack();
  }

  lemma FoundIsBack()
    ensures ScanOf(Entries(FOUND), [0]) == Some([BACK]) && SoundIds(FOUND) == {VIDEO}
  {
    var es, clock := FOUND, [0];
    assert JobDir(es[0]) && WellFormed(es[0].meta.content, VIDEO);
    assert ScanFirst(es, clock, 0) == Some([]);
    assert ScanFirst(es, clock, 1) == Some([] + [BACK]);
    assert [] + [BACK] == [BACK];
    assert es[0].name in SoundIds(es);
  }

  lemma RecoveredIsBack()
    ensures Recover(NOTHING, [BACK], map[VIDEO := Some(5)]) == BROUGHT_BACK.m.core
  {
    assert [BACK][1..] == [];
  }

  /** Then its old link opens it: from a state in which the run is dead, three steps lead there. */
  lemma BroughtBackRunOpens() returns (ws: seq<Web>, acts: seq<WebAct>)
    ensures WebRun(ws, acts) && TimesDiffer(ws[|acts|].tale.born) && Dead(ws[0], 0)
    ensures |acts| == 3 && acts[2] == MediaGet(0) && 0 in ws[3].visits && ws[3].visits[0] == MediaPassed(0, 0)
  {
    var boot := Boot(FOUND, [0], map[VIDEO := Some(5)], [Some(0)]);
    acts := [boot, MediaLookup(0, 2, "hash"), MediaGet(0)];
    ws := [AFTER_DELETE, BROUGHT_BACK, LOOKED, LOOKED.(visits := map[0 := MediaPassed(0, 0)])];
    BootBringsBack(boot);
    BackIsLooked();
    LookedPasses();
    ThreeSteps(ws, acts);
    DeletedCanStart();
  }

  lemma ThreeSteps(ws: seq<Web>, acts: seq<WebAct>)
    requires |ws| == 4 && |acts| == 3
    requires WebStep(ws[0], acts[0], ws[1]) && WebStep(ws[1], acts[1], ws[2]) && WebStep(ws[2], acts[2], ws[3])
    ensures WebPath(ws, acts)
  {
    assert WebMoves(ws, acts, 0) && WebMoves(ws, acts, 1) && WebMoves(ws, acts, 2);
  }

  lemma DeletedCanStart()
    ensures WebStart(AFTER_DELETE) && Dead(AFTER_DELETE, 0)
  {
  }

  lemma BackIsLooked()
    ensures WebStep(BROUGHT_BACK, MediaLookup(0, 2, "hash"), LOOKED)
  {
  }

  lemma LookedPasses()
    ensures WebStep(LOOKED, MediaGet(0), LOOKED.(visits := map[0 := MediaPassed(0, 0)]))
  {
  }

  // ---- deleted runs ----

  /** The run of the job that removal attempt a was for. */
  function DeletedRun(w: Web, a: Aid): nat {
    if a < |w.m.guard.atts| then RunOf(w.tale.runs, w.m.guard.atts[a].o) else 0
  }

  lemma DeletedIsDead(w: Web, t: Tid, a: Aid)
    requires Inv(w.m) && RunsOk(w.m.core, w.tale) && t in w.m.threads
    requires w.m.threads[t] == Returned(DeleteEnded(a, false))
    ensures a < |w.m.guard.atts| && Dead(w, DeletedRun(w, a))
  {
    assert PcOk(w.m, w.m.threads[t]) && AttemptOk(w.m, a);
    var o := w.m.guard.atts[a].o;
    assert IsRun(w.tale.born, w.tale.runs[o], w.m.core.objs[o].job.id, w.m.core.objs[o].job.createdAt);
    assert forall p | 0 <= p < |w.tale.runs| && Registered(w.m.core, p) :: p < o || o < p;
  }

  lemma DeletedStaysDead(ws: seq<Web>, acts: seq<WebAct>, i: nat, j: nat, t: Tid, a: Aid)
    requires WebRun(ws, acts) && i <= j < |ws| && TimesDiffer(ws[j].tale.born)
    requires t in ws[i].m.threads && ws[i].m.threads[t] == Returned(DeleteEnded(a, false))
    requires NeverBack(ws, acts, i, j, DeletedRun(ws[i], a))
    ensures Dead(ws[j], DeletedRun(ws[i], a))
  {
    BornPrefix(ws, acts, i, j);
    assert ws[i].tale.born == ws[j].tale.born[..|ws[i].tale.born|];
    TaleInv(ws, acts, i);
    InitInv(ws[0].m);
    ManagerInv(ws, acts, i);
    DeletedIsDead(ws[i], t, a);
    DeadStays(ws, acts, i, j, DeletedRun(ws[i], a));
  }

  lemma {:induction false} BornPrefix(ws: seq<Web>, acts: seq<WebAct>, i: nat, j: nat)
    requires WebPath(ws, acts) && i <= j < |ws|
    ensures ws[i].tale.born <= ws[j].tale.born
    decreases j - i
  {
    if i == j {
    } else {
      BornPrefix(ws, acts, i + 1, j);
      BornMoves(ws, acts, i);
    }
  }

  /**
    Once a Delete has returned nil, no request whose link was issued for the deleted run gets
    past the check, through whatever crashes and restarts, whether or not the delete's own
    revocation saw the link, and whatever links.json is read back.
   */
  lemma DeletedRunNeverOpens(ws: seq<Web>, acts: seq<WebAct>, i: nat, j: nat, t: Tid, a: Aid, v: nat)
    requires WebRun(ws, acts) && i <= j < |acts| && TimesDiffer(ws[j].tale.born)
    requires t in ws[i].m.threads && ws[i].m.threads[t] == Returned(DeleteEnded(a, false))
    requires NeverBack(ws, acts, i, j, DeletedRun(ws[i], a))
    requires acts[j] == MediaGet(v) && v in ws[j].visits && ws[j].visits[v].run == DeletedRun(ws[i], a)
    ensures v !in ws[j + 1].visits
  {
    DeletedStaysDead(ws, acts, i, j, t, a);
    OpensExactlyItsRun(ws, acts, j, v);
  }

  /** And the store never again holds a record of that run. */
  lemma DeletedRunIsGone(ws: seq<Web>, acts: seq<WebAct>, i: nat, j: nat, t: Tid, a: Aid, id: Id)
    requires WebRun(ws, acts) && i <= j < |ws| && TimesDiffer(ws[j].tale.born)
    requires t in ws[i].m.threads && ws[i].m.threads[t] == Returned(DeleteEnded(a, false))
    requires NeverBack(ws, acts, i, j, DeletedRun(ws[i], a))
    requires id in ws[j].m.shelf.disk && id !in ws[j].m.shelf.leftover
    ensures var rec := ws[j].m.shelf.disk[id];
      && rec.owner < |ws[j].tale.runs| && ws[j].tale.runs[rec.owner] != DeletedRun(ws[i], a)
      && !IsRun(ws[j].tale.born, DeletedRun(ws[i], a), id, rec.job.createdAt)
  {
    DeletedStaysDead(ws, acts, i, j, t, a);
    TaleInv(ws, acts, j);
    InitInv(ws[0].m);
    ManagerInv(ws, acts, j);
    RecordIsAlive(ws[j], id);
    assert Registered(ws[j].m.core, ws[j].m.shelf.disk[id].owner);
    if IsRun(ws[j].tale.born, DeletedRun(ws[i], a), id, ws[j].m.shelf.disk[id].job.createdAt) {
      SameRun(ws[j].tale.born, DeletedRun(ws[i], a), ws[j].tale.runs[ws[j].m.shelf.disk[id].owner], id,
        ws[j].m.shelf.disk[id].job.createdAt);
    }
  }

  // ---- without any history of links ----

  /** The video has no job, or one with another creation time. */
  predicate Absent(c: Core, video: Id, at: Time) {
    video in c.reg && c.reg[video] < |c.objs| ==> c.objs[c.reg[video]].job.createdAt != at
  }

  /** No job this step brings is that run. */
  ghost predicate NotCreated(w: Web, a: WebAct, w': Web, video: Id, at: Time) {
    forall o | (a.Boot? || |w.m.core.objs| <= o) && 0 <= o < |w'.m.core.objs| ::
      BirthOf(w'.m.core.objs[o].job) != Birth(video, at)
  }

  lemma AbsentMoves(w: Web, a: WebAct, w': Web, video: Id, at: Time)
    requires Inv(w.m) && Inv(w'.m) && WebStep(w, a, w') && Absent(w.m.core, video, at)
    requires NotCreated(w, a, w', video, at)
    ensures Absent(w'.m.core, video, at)
  {
    if a.Manage? && video in w'.m.core.reg && w'.m.core.reg[video] < |w.m.core.objs| {
      StepDated(w.m, a.act, w'.m);
      RegisteredOnce(w.m, a.act, w'.m, w'.m.core.reg[video]);
    }
  }

  lemma PathAbsentMoves(ws: seq<Web>, acts: seq<WebAct>, k: nat, video: Id, at: Time)
    requires WebPath(ws, acts) && Inv(ws[0].m) && k < |acts| && Absent(ws[k].m.core, video, at)
    requires NotCreated(ws[k], acts[k], ws[k + 1], video, at)
    ensures Absent(ws[k + 1].m.core, video, at)
  {
    ManagerInv(ws, acts, k);
    ManagerInv(ws, acts, k + 1);
    assert WebMoves(ws, acts, k);
    AbsentMoves(ws[k], acts[k], ws[k + 1], video, at);
  }

  ghost function AbsentFlags(ws: seq<Web>, video: Id, at: Time): (ok: seq<bool>)
    ensures |ok| == |ws| && forall k | 0 <= k < |ws| :: ok[k] == Absent(ws[k].m.core, video, at)
  {
    seq(|ws|, k requires 0 <= k < |ws| => Absent(ws[k].m.core, video, at))
  }

  ghost predicate NeverCreated(ws: seq<Web>, acts: seq<WebAct>, i: nat, j: nat, video: Id, at: Time)
    requires j <= |acts| < |ws|
  {
    forall k | i <= k < j :: NotCreated(ws[k], acts[k], ws[k + 1], video, at)
  }

  lemma AbsentStays(ws: seq<Web>, acts: seq<WebAct>, i: nat, j: nat, video: Id, at: Time)
    requires WebPath(ws, acts) && Inv(ws[0].m) && i <= j < |ws|
    requires Absent(ws[i].m.core, video, at) && NeverCreated(ws, acts, i, j, video, at)
    ensures Absent(ws[j].m.core, video, at)
  {
    var ok := AbsentFlags(ws, video, at);
    forall k | i <= k < j ensures Carries(ok, k) {
      AbsentKept(ws, acts, i, j, k, video, at);
    }
    Chain(ok, i, j);
  }

  lemma AbsentKept(ws: seq<Web>, acts: seq<WebAct>, i: nat, j: nat, k: nat, video: Id, at: Time)
    requires WebPath(ws, acts) && Inv(ws[0].m) && i <= k < j < |ws|
    requires NeverCreated(ws, acts, i, j, video, at)
    ensures Carries(AbsentFlags(ws, video, at), k)
  {
    assert NotCreated(ws[k], acts[k], ws[k + 1], video, at);
    if Absent(ws[k].m.core, video, at) {
      PathAbsentMoves(ws, acts, k, video, at);
    }
  }

  /**
    With nothing assumed about the links: when the video has no job of that creation time, and
    none is created with it later, no request that names it gets past the check. This stops the
    links that a failed write left in links.json and a restart brought back.
   */
  lemma AbsentRunNeverOpens(ws: seq<Web>, acts: seq<WebAct>, i: nat, j: nat, v: nat)
    requires WebPath(ws, acts) && Inv(ws[0].m) && i <= j < |acts|
    requires acts[j] == MediaGet(v) && v in ws[j].visits && ws[j].visits[v].MediaLooked?
    requires Absent(ws[i].m.core, ws[j].visits[v].video, ws[j].visits[v].jobAt)
    requires NeverCreated(ws, acts, i, j, ws[j].visits[v].video, ws[j].visits[v].jobAt)
    ensures v !in ws[j + 1].visits
  {
    var video, at := ws[j].visits[v].video, ws[j].visits[v].jobAt;
    AbsentStays(ws, acts, i, j, video, at);
    AbsentFails(ws, acts, j, v);
  }

  lemma AbsentFails(ws: seq<Web>, acts: seq<WebAct>, j: nat, v: nat)
    requires WebPath(ws, acts) && j < |acts| && acts[j] == MediaGet(v)
    requires v in ws[j].visits && ws[j].visits[v].MediaLooked?
    requires Absent(ws[j].m.core, ws[j].visits[v].video, ws[j].visits[v].jobAt)
    ensures v !in ws[j + 1].visits
  {
    assert WebMoves(ws, acts, j);
  }

  // ---- where links come from ----

  /** At step j handleShareLink read a job of this run, ready, as the run of the video with this time. */
  ghost predicate ReadAt(ws: seq<Web>, acts: seq<WebAct>, j: nat, run: nat, video: Id, jobAt: Time)
    requires j < |acts| && j < |ws|
  {
    && acts[j].ShareGet? && acts[j].video == video && Opens(ws[j].m.core, video, jobAt)
    && RunOf(ws[j].tale.runs, ws[j].m.core.reg[video]) == run
  }

  /** It was so read at some step before, or the link was there when the history starts. */
  ghost predicate WasRead(ws: seq<Web>, acts: seq<WebAct>, k: nat, run: nat, video: Id, jobAt: Time)
    requires k <= |acts| < |ws|
  {
    || (exists j :: 0 <= j < k && ReadAt(ws, acts, j, run, video, jobAt))
    || (exists link :: link in ws[0].tale.issued && ws[0].tale.issued[link] == run &&
          link.body == LinkStore.Target(video, jobAt))
  }

  ghost predicate LinkWasRead(ws: seq<Web>, acts: seq<WebAct>, k: nat, link: LinkStore.Link)
    requires k <= |acts| < |ws| && link in ws[k].tale.issued
  {
    WasRead(ws, acts, k, ws[k].tale.issued[link], link.body.video, link.body.jobCreatedAt)
  }

  ghost predicate VisitWasRead(ws: seq<Web>, acts: seq<WebAct>, k: nat, v: nat)
    requires k <= |acts| < |ws| && v in ws[k].visits
  {
    var visit := ws[k].visits[v];
    visit.MediaPassed? || WasRead(ws, acts, k, visit.run, visit.video, visit.jobAt)
  }

  ghost predicate AllRead(ws: seq<Web>, acts: seq<WebAct>, k: nat)
    requires k <= |acts| < |ws|
  {
    && LinksKnown(ws[k].links, ws[k].tale.issued)
    && (forall link | link in ws[k].tale.issued :: LinkWasRead(ws, acts, k, link))
    && (forall v | v in ws[k].visits :: VisitWasRead(ws, acts, k, v))
  }

  lemma ReadEarlier(ws: seq<Web>, acts: seq<WebAct>, k: nat, run: nat, video: Id, jobAt: Time)
    requires k < |acts| < |ws| && WasRead(ws, acts, k, run, video, jobAt)
    ensures WasRead(ws, acts, k + 1, run, video, jobAt)
  {
    if j :| 0 <= j < k && ReadAt(ws, acts, j, run, video, jobAt) {
      assert 0 <= j < k + 1;
    }
  }

  lemma LinkRead(ws: seq<Web>, acts: seq<WebAct>, k: nat, link: LinkStore.Link)
    requires WebPath(ws, acts) && k < |acts| && AllRead(ws, acts, k) && link in ws[k + 1].tale.issued
    ensures LinkWasRead(ws, acts, k + 1, link)
  {
    assert WebMoves(ws, acts, k);
    var w := ws[k];
    if acts[k].ShareIssue? {
      assert VisitWasRead(ws, acts, k, acts[k].v);
    }
    assert link in w.tale.issued ==> LinkWasRead(ws, acts, k, link);
    var run := ws[k + 1].tale.issued[link];
    assert WasRead(ws, acts, k, run, link.body.video, link.body.jobCreatedAt);
    ReadEarlier(ws, acts, k, run, link.body.video, link.body.jobCreatedAt);
  }

  lemma VisitRead(ws: seq<Web>, acts: seq<WebAct>, k: nat, v: nat)
    requires WebPath(ws, acts) && k < |acts| && AllRead(ws, acts, k) && v in ws[k + 1].visits
    ensures VisitWasRead(ws, acts, k + 1, v)
  {
    assert WebMoves(ws, acts, k);
    var visit := ws[k + 1].visits[v];
    if acts[k].ShareGet? && acts[k].v == v {
      assert ReadAt(ws, acts, k, visit.run, visit.video, visit.jobAt);
    } else if !visit.MediaPassed? {
      if acts[k].MediaLookup? && acts[k].v == v {
        assert LinkWasRead(ws, acts, k, ws[k].links.links[acts[k].hash]);
      } else {
        assert VisitWasRead(ws, acts, k, v);
      }
      ReadEarlier(ws, acts, k, visit.run, visit.video, visit.jobAt);
    }
  }

  lemma StepKnown(w: Web, a: WebAct, w': Web)
    requires LinksKnown(w.links, w.tale.issued) && WebStep(w, a, w')
    ensures LinksKnown(w'.links, w'.tale.issued)
  {
    if a.ShareIssue? || a.Tend? {
      LinksComeFrom(w.links, a.op, w'.tale.issued);
    }
  }

  lemma ReadMoves(ws: seq<Web>, acts: seq<WebAct>, k: nat)
    requires WebPath(ws, acts) && k < |acts| && AllRead(ws, acts, k)
    ensures AllRead(ws, acts, k + 1)
  {
    var n := k + 1;
    assert WebMoves(ws, acts, k);
    StepKnown(ws[k], acts[k], ws[n]);
    forall link | link in ws[n].tale.issued ensures LinkWasRead(ws, acts, n, link) {
      LinkRead(ws, acts, k, link);
    }
    forall v | v in ws[n].visits ensures VisitWasRead(ws, acts, n, v) {
      VisitRead(ws, acts, k, v);
    }
  }

  /**
    Every link in memory and on file, and every request on its way to the check, goes back to a
    job that was read as ready, or to a link from before the history starts.
   */
  lemma {:induction false} LinksWereRead(ws: seq<Web>, acts: seq<WebAct>, k: nat)
    requires WebRun(ws, acts) && k < |ws|
    ensures AllRead(ws, acts, k)
  {
    if k == 0 {
    } else {
      LinksWereRead(ws, acts, k - 1);
      ReadMoves(ws, acts, k - 1);
    }
  }
}
