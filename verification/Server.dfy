/**
  The server over its lives: the job manager's machine, the link store and the link handlers of
  internal/app/http.go, with crashes and restarts in between. Each handler is split where it
  leaves one store for the other.

  Runs of a video are numbered by birth: a run begins when Submit registers a job, or when a start
  finds a directory that is not the record of an earlier run. The numbers are history, carried
  along beside the state.
 */
module Server {
  import opened Model
  import opened DiskStore
  import opened JobCore
  import opened JobMachine
  import opened Invariant
  import opened RegistrySteps
  import opened Runs
  import opened Recovery
  import TokenMap
  import LinkStore
  import LinkRuns

  /** What the code knows a run by. */
  datatype Birth = Birth(video: Id, at: Time)

  /** All runs so far, the run of each job object of this life, and each link with its run. */
  datatype Tale = Tale(born: seq<Birth>, runs: seq<nat>, issued: map<LinkStore.Link, nat>)

  /** A request between two of its steps; `run` is the run its link is for. */
  datatype Visit =
    | ShareGot(video: Id, jobAt: Time, run: nat)     // handleShareLink has read a ready job
    | MediaLooked(video: Id, jobAt: Time, run: nat)  // handlePublicMedia has looked up its token
    | MediaPassed(o: Oid, run: nat)                  // and its check let it through to job o

  datatype Web = Web(m: State, links: LinkStore.St, visits: map<nat, Visit>, tale: Tale)

  /** `took` says, for each job a start finds, which earlier run's record it is, if any. */
  datatype WebAct =
    | Manage(act: Action)
    | ShareGet(v: nat, video: Id)
    | ShareIssue(v: nat, op: LinkRuns.Op)
    | MediaLookup(v: nat, now: Time, hash: TokenMap.Hash)
    | MediaGet(v: nat)
    | Tend(op: LinkRuns.Op)
    | Boot(es: seq<Entry>, clock: seq<Time>, sizes: map<Id, Option<int>>, took: seq<Option<nat>>)

  /** The registered job of the video, if it is ready. */
  predicate IsReady(c: Core, video: Id) {
    video in c.reg && c.reg[video] < |c.objs| && c.objs[c.reg[video]].job.status.Ready?
  }

  /** The incarnation check of handlePublicMedia. */
  predicate Opens(c: Core, video: Id, jobAt: Time) {
    IsReady(c, video) && c.objs[c.reg[video]].job.createdAt == jobAt
  }

  function BirthOf(j: Job): Birth {
    Birth(j.id, j.createdAt)
  }

  /** The manager's step may register one new object: a new run. */
  function AfterManage(tale: Tale, c: Core, c': Core): Tale {
    if |c'.objs| <= |c.objs| then tale
    else tale.(born := tale.born + [BirthOf(c'.objs[|c.objs|].job)], runs := tale.runs + [|tale.born|])
  }

  function RunOf(runs: seq<nat>, o: Oid): nat {
    if o < |runs| then runs[o] else 0
  }

  function IssuedFor(issued: map<LinkStore.Link, nat>, link: LinkStore.Link): nat {
    if link in issued then issued[link] else 0
  }

  // ---- starting again ----

  /** Job j, found by a start, goes on as the run whose record it is, or is a new run. */
  predicate TakenUp(born: seq<Birth>, j: Job, took: Option<nat>, born': seq<Birth>, run: nat) {
    && run < |born'| && born'[run] == BirthOf(j)
    && match took
       case Some(r) => run == r < |born|
       case None => |born| <= run
  }

  ghost predicate AllTakenUp(tale: Tale, jobs: seq<Job>, took: seq<Option<nat>>, tale': Tale) {
    && |took| == |jobs| == |tale'.runs| && tale.born <= tale'.born && tale'.issued == tale.issued
    && (forall i | 0 <= i < |jobs| :: TakenUp(tale.born, jobs[i], took[i], tale'.born, tale'.runs[i]))
  }

  ghost predicate KnownLinks(m: LinkStore.Links, issued: map<LinkStore.Link, nat>) {
    forall h | h in m :: m[h] in issued
  }

  /** Whatever state of links.json is found: links that were issued once. */
  ghost predicate LinksKnown(st: LinkStore.St, issued: map<LinkStore.Link, nat>) {
    KnownLinks(st.links, issued) && KnownLinks(LinkRuns.OnFile(st), issued)
  }

  ghost predicate Scanned(a: WebAct, jobs: seq<Job>)
    requires a.Boot?
  {
    && DistinctEntries(a.es) && |a.clock| == |a.es| && ScanOf(Entries(a.es), a.clock) == Some(jobs)
    && (forall j | j in jobs :: j.id in a.sizes)
  }

  /** The process died, wherever its threads were, and starts again on what the disk holds. */
  ghost predicate BootStep(w: Web, a: WebAct, w': Web)
    requires a.Boot?
  {
    && |a.clock| == |a.es| && ScanOf(Entries(a.es), a.clock).Some?
    && var jobs := ScanOf(Entries(a.es), a.clock).value;
    && Scanned(a, jobs)
    && w'.m.core == Recover(NOTHING, jobs, a.sizes) && w'.m.threads == WORKERS
    && w'.m.guard == Guard(map[], map[], [], false) && ShelfOf(w'.m.shelf, w'.m.core, jobs, SoundIds(a.es))
    && AllTakenUp(w.tale, jobs, a.took, w'.tale) && LinksKnown(w'.links, w.tale.issued) && w'.visits == map[]
  }

  ghost predicate WebStep(w: Web, a: WebAct, w': Web) {
    match a
    case Manage(act) =>
      && Step(w.m, act, w'.m) && w'.links == w.links && w'.visits == w.visits
      && w'.tale == AfterManage(w.tale, w.m.core, w'.m.core)
    case ShareGet(v, video) =>
      && v !in w.visits && IsReady(w.m.core, video)
      && w'.m == w.m && w'.links == w.links && w'.tale == w.tale
      && var o := w.m.core.reg[video];
      w'.visits == w.visits[v := ShareGot(video, w.m.core.objs[o].job.createdAt, RunOf(w.tale.runs, o))]
    case ShareIssue(v, op) =>
      && v in w.visits && w.visits[v].ShareGot? && op.Share?
      && op.video == w.visits[v].video && op.jobAt == w.visits[v].jobAt
      && LinkRuns.Possible(w.links, op) && w'.links == LinkRuns.Apply(w.links, op)
      && w'.m == w.m && w'.visits == w.visits - {v}
      && var link := LinkStore.NewLink(op.hash, op.video, op.jobAt, op.now);
      w'.tale == w.tale.(issued := w.tale.issued[link := w.visits[v].run])
    case MediaLookup(v, now, hash) =>
      && v !in w.visits && LinkStore.Answer(w.links, now, hash).Some?
      && w'.m == w.m && w'.links == w.links && w'.tale == w.tale
      && var link := w.links.links[hash];
      w'.visits == w.visits[v := MediaLooked(link.body.video, link.body.jobCreatedAt, IssuedFor(w.tale.issued, link))]
    case MediaGet(v) =>
      && v in w.visits && w.visits[v].MediaLooked?
      && w'.m == w.m && w'.links == w.links && w'.tale == w.tale
      && var visit := w.visits[v];
      w'.visits == if Opens(w.m.core, visit.video, visit.jobAt)
                   then w.visits[v := MediaPassed(w.m.core.reg[visit.video], visit.run)] else w.visits - {v}
    case Tend(op) =>  // the background sweep, and the revocations after a delete or a retry
      && (op.Sweep? || op.Withdraw?) && w'.m == w.m && w'.visits == w.visits && w'.tale == w.tale
      && w'.links == LinkRuns.Apply(w.links, op)
    case Boot(_, _, _, _) => BootStep(w, a, w')
  }

  ghost predicate WebMoves(ws: seq<Web>, acts: seq<WebAct>, k: nat)
    requires k < |acts| && k + 1 < |ws|
  {
    WebStep(ws[k], acts[k], ws[k + 1])
  }

  // ---- what is known of runs ----

  predicate IsRun(born: seq<Birth>, run: nat, video: Id, at: Time) {
    run < |born| && born[run] == Birth(video, at)
  }

  /** No two runs of a video were created at the same time. */
  ghost predicate TimesDiffer(born: seq<Birth>) {
    forall r, q | 0 <= r < q < |born| :: born[r] != born[q]
  }

  ghost predicate RunsOk(c: Core, tale: Tale) {
    && |tale.runs| == |c.objs|
    && (forall o | 0 <= o < |c.objs| :: IsRun(tale.born, tale.runs[o], c.objs[o].job.id, c.objs[o].job.createdAt))
    && (forall o, p | 0 <= o < p < |c.objs| :: tale.runs[o] != tale.runs[p])
  }

  predicate RecordDated(s: State, id: Id) {
    id in s.shelf.disk && id in s.core.reg && s.core.reg[id] < |s.core.objs| ==>
      s.shelf.disk[id].job.createdAt == s.core.objs[s.core.reg[id]].job.createdAt
  }

  predicate WriteDated(s: State, pc: Pc) {
    pc.Storing? && pc.at.Writing? && pc.o < |s.core.objs| ==> pc.at.snap.createdAt == s.core.objs[pc.o].job.createdAt
  }

  /** Records, and writes under way, carry their job's creation time. */
  ghost predicate RecordsDated(s: State) {
    && (forall id | id in s.shelf.disk :: RecordDated(s, id))
    && (forall t | t in s.threads :: WriteDated(s, s.threads[t]))
  }

  predicate VisitOk(tale: Tale, visit: Visit) {
    match visit
    case ShareGot(video, jobAt, run) => IsRun(tale.born, run, video, jobAt)
    case MediaLooked(video, jobAt, run) => IsRun(tale.born, run, video, jobAt)
    case MediaPassed(o, run) => o < |tale.runs| && tale.runs[o] == run
  }

  predicate LinkOk(tale: Tale, link: LinkStore.Link) {
    link in tale.issued && IsRun(tale.born, tale.issued[link], link.body.video, link.body.jobCreatedAt)
  }

  /** Every job, link and request names a run by its video and creation time. */
  ghost predicate TaleOk(w: Web) {
    && RunsOk(w.m.core, w.tale) && RecordsDated(w.m) && LinksKnown(w.links, w.tale.issued)
    && (forall link | link in w.tale.issued :: LinkOk(w.tale, link))
    && (forall v | v in w.visits :: VisitOk(w.tale, w.visits[v]))
  }

  ghost predicate WebPath(ws: seq<Web>, acts: seq<WebAct>) {
    |ws| == |acts| + 1 && forall k | 0 <= k < |acts| :: WebMoves(ws, acts, k)
  }

  /** The server has just started, with whatever jobs, links and runs there were before. */
  ghost predicate WebStart(w: Web) {
    Init(w.m) && w.visits == map[] && TaleOk(w)
  }

  ghost predicate WebRun(ws: seq<Web>, acts: seq<WebAct>) {
    WebPath(ws, acts) && WebStart(ws[0])
  }

  // ---- any state of the stores can be a start ----

  /** The history in which each job of a just recovered registry is a run, and no link is known. */
  function Births(c: Core): Tale {
    Tale(seq(|c.objs|, o requires 0 <= o < |c.objs| => BirthOf(c.objs[o].job)), seq(|c.objs|, o => o), map[])
  }

  lemma BirthsOk(m: State)
    requires Init(m)
    ensures RunsOk(m.core, Births(m.core)) && TimesDiffer(Births(m.core).born)
  {
    assert forall o | 0 <= o < |m.core.objs| :: Registered(m.core, o);
  }

  predicate Tells(tale: Tale, known: set<LinkStore.Link>) {
    tale.issued.Keys == known && forall link | link in known :: LinkOk(tale, link)
  }

  /** One more link: of a run already known, or of one of its own. */
  lemma TellOne(tale: Tale, known: set<LinkStore.Link>, link: LinkStore.Link) returns (tale': Tale)
    requires Tells(tale, known) && TimesDiffer(tale.born)
    ensures Tells(tale', known + {link}) && TimesDiffer(tale'.born)
    ensures tale.born <= tale'.born && tale'.runs == tale.runs
  {
    var birth := Birth(link.body.video, link.body.jobCreatedAt);
    if r :| 0 <= r < |tale.born| && tale.born[r] == birth {
      tale' := tale.(issued := tale.issued[link := r]);
    } else {
      tale' := tale.(born := tale.born + [birth], issued := tale.issued[link := |tale.born|]);
    }
    forall l | l in known + {link} ensures LinkOk(tale', l) {
      assert l != link ==> LinkOk(tale, l);
    }
  }

  lemma TellAll(c: Core, all: set<LinkStore.Link>) returns (tale: Tale)
    requires RunsOk(c, Births(c)) && TimesDiffer(Births(c).born)
    ensures RunsOk(c, tale) && TimesDiffer(tale.born) && Tells(tale, all)
  {
    tale := Births(c);
    var known: set<LinkStore.Link> := {};
    var left := all;
    while left != {}
      invariant known + left == all && Tells(tale, known) && TimesDiffer(tale.born) && RunsOk(c, tale)
    {
      var link :| link in left;
      tale := TellOne(tale, known, link);
      known, left := known + {link}, left - {link};
    }
  }

  /** Whatever jobs were recovered and whatever links were loaded, there is a history that fits. */
  lemma AnyStart(m: State, links: LinkStore.St) returns (tale: Tale)
    requires Init(m) && RecordsDated(m)
    ensures WebStart(Web(m, links, map[], tale)) && TimesDiffer(tale.born)
  {
    BirthsOk(m);
    tale := TellAll(m.core, links.links.Values + LinkRuns.OnFile(links).Values);
    TellsStart(m, links, tale);
  }

  lemma TellsStart(m: State, links: LinkStore.St, tale: Tale)
    requires Init(m) && RecordsDated(m) && RunsOk(m.core, tale)
    requires Tells(tale, links.links.Values + LinkRuns.OnFile(links).Values)
    ensures WebStart(Web(m, links, map[], tale))
  {
    assert forall h | h in links.links :: links.links[h] in links.links.Values;
    assert forall h | h in LinkRuns.OnFile(links) :: LinkRuns.OnFile(links)[h] in LinkRuns.OnFile(links).Values;
  }

  // ---- what a start finds ----

  /** The records taken up are those the store held when the server stopped. */
  ghost predicate AsLeft(s: State, jobs: seq<Job>, took: seq<Option<nat>>) {
    forall i | 0 <= i < |jobs| && i < |took| && took[i].Some? ::
      && jobs[i].id in s.shelf.disk && jobs[i].id !in s.shelf.leftover
      && s.shelf.disk[jobs[i].id].job == jobs[i]
  }

  ghost predicate FoundAsLeft(w: Web, a: WebAct) {
    a.Boot? && |a.clock| == |a.es| && ScanOf(Entries(a.es), a.clock).Some? ==>
      AsLeft(w.m, ScanOf(Entries(a.es), a.clock).value, a.took)
  }

  /** The start finds a record of this run. */
  predicate BringsBack(a: WebAct, run: nat) {
    a.Boot? && Some(run) in a.took
  }

  // ---- jobs keep their creation time ----

  ghost predicate Dated(c: Core, c': Core) {
    && |c.objs| <= |c'.objs| <= |c.objs| + 1
    && (forall o | 0 <= o < |c.objs| :: BirthOf(c'.objs[o].job) == BirthOf(c.objs[o].job))
  }

  lemma WorkDated(s: State, t: Tid, wk: WorkStep, s': State)
    requires WorkNext(s, t, wk, s')
    ensures Dated(s.core, s'.core)
  {
  }

  lemma RemoveDated(s: State, t: Tid, rm: RemoveStep, s': State)
    requires RemoveNext(s, t, rm, s')
    ensures Dated(s.core, s'.core)
  {
  }

  lemma CallerDates(s: State, t: Tid, ca: CallerStep, s': State, o: Oid)
    requires CallerNext(s, t, ca, s') && o < |s.core.objs|
    ensures o < |s'.core.objs| && BirthOf(s'.core.objs[o].job) == BirthOf(s.core.objs[o].job)
  {
    if ca.SubmitOnce? {
      SubmitDates(s, t, ca, s', o);
    }
  }

  lemma SubmitDates(s: State, t: Tid, ca: CallerStep, s': State, o: Oid)
    requires CallerNext(s, t, ca, s') && ca.SubmitOnce? && o < |s.core.objs|
    ensures o < |s'.core.objs| && BirthOf(s'.core.objs[o].job) == BirthOf(s.core.objs[o].job)
  {
  }

  lemma CallerAddsOne(s: State, t: Tid, ca: CallerStep, s': State)
    requires CallerNext(s, t, ca, s')
    ensures |s.core.objs| <= |s'.core.objs| <= |s.core.objs| + 1
  {
  }

  lemma CallerDated(s: State, t: Tid, ca: CallerStep, s': State)
    requires CallerNext(s, t, ca, s')
    ensures Dated(s.core, s'.core)
  {
    CallerAddsOne(s, t, ca, s');
    forall o | 0 <= o < |s.core.objs| ensures BirthOf(s'.core.objs[o].job) == BirthOf(s.core.objs[o].job) {
      CallerDates(s, t, ca, s', o);
    }
  }

  lemma StepDated(s: State, act: Action, s': State)
    requires Step(s, act, s')
    ensures Dated(s.core, s'.core)
  {
    match act
    case WorkAct(t, wk) => WorkDated(s, t, wk, s');
    case SaveAct(_, _) =>
    case RemoveAct(t, rm) => RemoveDated(s, t, rm, s');
    case CallerAct(t, ca) => CallerDated(s, t, ca, s');
    case Call(_, _) =>
  }

  // ---- the manager's invariant, through restarts ----

  lemma BootInit(w: Web, a: WebAct, w': Web)
    requires a.Boot? && BootStep(w, a, w')
    ensures Init(w'.m)
  {
    RestartIsSound(a.es, a.clock, a.sizes, w'.m);
  }

  lemma ManagerMoves(ws: seq<Web>, acts: seq<WebAct>, k: nat)
    requires k < |acts| && k + 1 < |ws| && WebMoves(ws, acts, k) && Inv(ws[k].m)
    ensures Inv(ws[k + 1].m)
  {
    if acts[k].Manage? {
      StepKeeps(ws[k].m, acts[k].act, ws[k + 1].m);
    } else if acts[k].Boot? {
      BootInit(ws[k], acts[k], ws[k + 1]);
      InitInv(ws[k + 1].m);
    }
  }

  ghost function InvFlags(ws: seq<Web>): (ok: seq<bool>)
    ensures |ok| == |ws| && forall k | 0 <= k < |ws| :: ok[k] == Inv(ws[k].m)
  {
    seq(|ws|, k requires 0 <= k < |ws| => Inv(ws[k].m))
  }

  lemma PathManagerMoves(ws: seq<Web>, acts: seq<WebAct>, k: nat)
    requires WebPath(ws, acts) && k < |acts|
    ensures Carries(InvFlags(ws), k)
  {
    assert WebMoves(ws, acts, k);
    if Inv(ws[k].m) {
      ManagerMoves(ws, acts, k);
    }
  }

  lemma ManagerInv(ws: seq<Web>, acts: seq<WebAct>, k: nat)
    requires WebPath(ws, acts) && Inv(ws[0].m) && k < |ws|
    ensures Inv(ws[k].m)
  {
    var ok := InvFlags(ws);
    forall i | 0 <= i < k ensures Carries(ok, i) {
      PathManagerMoves(ws, acts, i);
    }
    Chain(ok, 0, k);
  }
}
