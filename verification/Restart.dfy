/**
  What a restart makes of every job directory: from the directory's contents and the measured
  file to the card, in one statement over Scan and Recover.
 */
module Restart {
  import opened Model
  import opened DiskStore
  import opened JobCore
  import opened Queue
  import opened Recovery

  /** The registry after a start on this listing. */
  function Started(es: seq<Entry>, clock: seq<Time>, sizes: map<Id, Option<int>>): Core
    requires Startable(es, clock, sizes)
  {
    Recover(NOTHING, ScanOf(Entries(es), clock).value, sizes)
  }

  /** The scan succeeds, and `sizes` has the store's answers for the scanned videos. */
  predicate Startable(es: seq<Entry>, clock: seq<Time>, sizes: map<Id, Option<int>>) {
    && |clock| == |es| && ScanOf(Entries(es), clock).Some?
    && forall j | j in ScanOf(Entries(es), clock).value :: j.id in sizes
  }

  // ---- the directory among the scanned jobs ----

  lemma {:induction false} ScanHas(es: seq<Entry>, clock: seq<Time>, n: nat, k: nat) returns (i: nat)
    requires k < n <= |es| == |clock| && JobDir(es[k]) && ScanFirst(es, clock, n).Some?
    ensures ScanFirst(es, clock, k).Some? && i == |ScanFirst(es, clock, k).value| < |ScanFirst(es, clock, n).value|
    ensures ScanFirst(es, clock, n).value[i] == JobOf(es[k], clock[k])
  {
    if k == n - 1 {
      i := |ScanFirst(es, clock, n).value| - 1;
    } else {
      i := ScanHas(es, clock, n - 1, k);
    }
  }

  /** The card of directory k. */
  lemma DirectoryCard(es: seq<Entry>, clock: seq<Time>, sizes: map<Id, Option<int>>, k: nat) returns (i: nat)
    requires Startable(es, clock, sizes) && DistinctEntries(es) && k < |es| && JobDir(es[k])
    ensures var c := Started(es, clock, sizes);
      && es[k].name in c.reg && es[k].name in sizes && Registered(c, i) && c.reg[es[k].name] == i && !c.closing
      && c.objs[i] == RecoveredRec(JobOf(es[k], clock[k]), sizes[es[k].name], i + 1)
      && ScanFirst(es, clock, k).Some? && i == |ScanFirst(es, clock, k).value|
  {
    i := ScanHas(es, clock, |es|, k);
    StartedHolds(es, clock, sizes);
    CardOf(ScanOf(Entries(es), clock).value, sizes, Started(es, clock, sizes), i);
  }

  lemma StartedHolds(es: seq<Entry>, clock: seq<Time>, sizes: map<Id, Option<int>>)
    requires Startable(es, clock, sizes) && DistinctEntries(es)
    ensures Rebuilt(Started(es, clock, sizes), sizes)
    ensures HoldsScanned(Started(es, clock, sizes), ScanOf(Entries(es), clock).value, sizes)
  {
    var jobs := ScanOf(Entries(es), clock).value;
    ScanNames(es, clock, |es|);
    NamesDistinct(es, |es|);
    RecoverAll(NOTHING, jobs, sizes);
    RecoverHoldsScanned(jobs, sizes);
  }

  lemma CardOf(jobs: seq<Job>, sizes: map<Id, Option<int>>, c: Core, i: nat)
    requires Rebuilt(c, sizes) && HoldsScanned(c, jobs, sizes) && i < |jobs|
    ensures jobs[i].id in sizes && jobs[i].id in c.reg && Registered(c, i) && c.reg[jobs[i].id] == i && !c.closing
    ensures c.objs[i] == RecoveredRec(jobs[i], sizes[jobs[i].id], i + 1)
  {
    assert CardOk(c, sizes, i);
  }

  // ---- what its card says ----

  /** The directory holds a proper record with this status. */
  predicate Says(e: Entry, status: Status) {
    && e.meta.File? && e.meta.content.Record?
    && var raw := e.meta.content.raw;
    raw.id == e.name && raw.createdAt != ZERO_TIME && raw.status == Some(status)
  }

  predicate SaysRunning(e: Entry) {
    Says(e, Downloading) || Says(e, Processing) || Says(e, Verifying)
  }

  predicate IsRecord(e: Entry) {
    Says(e, Queued) || SaysRunning(e) || Says(e, Ready) || Says(e, Failed)
  }

  predicate HasFile(sizes: map<Id, Option<int>>, id: Id) {
    id in sizes && sizes[id].Some? && sizes[id].value != 0
  }

  /** The card's status: queued and failed as recorded, ready only with a file, failed in every other case. */
  lemma StartedStatus(es: seq<Entry>, clock: seq<Time>, sizes: map<Id, Option<int>>, k: nat)
    requires Startable(es, clock, sizes) && DistinctEntries(es) && k < |es| && JobDir(es[k])
    ensures var c, e := Started(es, clock, sizes), es[k];
      && e.name in c.reg && Registered(c, c.reg[e.name])
      && var st := c.objs[c.reg[e.name]].job.status;
      && (st.Queued? <==> Says(e, Queued))
      && (st.Ready? <==> Says(e, Ready) && HasFile(sizes, e.name))
      && (st.Failed? <==> !st.Queued? && !st.Ready?)
  {
    var i := DirectoryCard(es, clock, sizes, k);
  }

  /** The rest of the card, by what the directory holds. */
  lemma StartedCard(es: seq<Entry>, clock: seq<Time>, sizes: map<Id, Option<int>>, k: nat)
    requires Startable(es, clock, sizes) && DistinctEntries(es) && k < |es| && JobDir(es[k])
    ensures var c, e := Started(es, clock, sizes), es[k];
      && e.name in c.reg && Registered(c, c.reg[e.name]) && e.name in sizes
      && var j := c.objs[c.reg[e.name]].job;
      && j.id == e.name
      && if IsRecord(e) then
           var raw := e.meta.content.raw;
           && j.title == raw.title && j.duration == raw.duration && j.createdAt == raw.createdAt
           && j.size == (if Says(e, Ready) && HasFile(sizes, e.name) then sizes[e.name].value else raw.size)
           && j.error ==
                (if SaysRunning(e) then "The download was interrupted by a restart. Tap Retry to continue."
                 else if Says(e, Ready) && !HasFile(sizes, e.name)
                 then "The stored file is missing. Retry to download it again."
                 else raw.error)
         else
           && j.duration == 0.0 && j.size == 0
           && j.error == "The stored job data is unreadable. Delete it and submit the URL again."
           && if e.meta.File? && e.meta.content.Record? && e.meta.content.raw.id == e.name
                 && e.meta.content.raw.createdAt != ZERO_TIME
              then j.title == e.meta.content.raw.title && j.createdAt == e.meta.content.raw.createdAt
              else j.title == "" && j.createdAt == clock[k]
  {
    var i := DirectoryCard(es, clock, sizes, k);
  }

  /** Nobody works on it, its context is live, its title may be tried three times, and its place is its own. */
  lemma StartedFresh(es: seq<Entry>, clock: seq<Time>, sizes: map<Id, Option<int>>, k: nat)
    requires Startable(es, clock, sizes) && DistinctEntries(es) && k < |es| && JobDir(es[k])
    ensures var c := Started(es, clock, sizes);
      && es[k].name in c.reg && Registered(c, c.reg[es[k].name]) && !CtxDone(c, c.reg[es[k].name])
      && var r := c.objs[c.reg[es[k].name]];
      && !r.active && !r.fetching && !r.deleting && r.titleTries == 0 && r.removal == None
      && r.order == c.reg[es[k].name] + 1
  {
    var i := DirectoryCard(es, clock, sizes, k);
  }

  /** Two cards wait in the order of their directories. */
  lemma StartedInOrder(es: seq<Entry>, clock: seq<Time>, sizes: map<Id, Option<int>>, k: nat, m: nat)
    requires Startable(es, clock, sizes) && DistinctEntries(es) && k < m < |es| && JobDir(es[k]) && JobDir(es[m])
    ensures var c := Started(es, clock, sizes);
      && es[k].name in c.reg && es[m].name in c.reg && c.reg[es[k].name] < |c.objs| && c.reg[es[m].name] < |c.objs|
      && c.objs[c.reg[es[k].name]].order < c.objs[c.reg[es[m].name]].order
  {
    var i := DirectoryCard(es, clock, sizes, k);
    var n := DirectoryCard(es, clock, sizes, m);
    var before := ScanHas(es, clock, m, k);
    assert i == before < n;
  }

  /** A job that was queued when the server stopped waits again, unchanged, and can be picked. */
  lemma QueuedResumes(es: seq<Entry>, clock: seq<Time>, sizes: map<Id, Option<int>>, k: nat, j: Job)
    requires Startable(es, clock, sizes) && DistinctEntries(es) && k < |es| && ValidId(j.id)
    requires es[k] == Entry(j.id, true, File(Encode(j))) && j.status.Queued? && j.createdAt != ZERO_TIME
    ensures var c := Started(es, clock, sizes);
      && j.id in c.reg && Registered(c, c.reg[j.id]) && c.objs[c.reg[j.id]].job == j
      && InQueue(c, c.reg[j.id]) && Pickable(c, c.reg[j.id]) && !CtxDone(c, c.reg[j.id])
  {
    var i := DirectoryCard(es, clock, sizes, k);
  }

  /** There are no other cards: every card is that of a job directory. */
  lemma CardsAreDirectories(es: seq<Entry>, clock: seq<Time>, sizes: map<Id, Option<int>>, o: Oid)
    requires Startable(es, clock, sizes) && DistinctEntries(es) && o < |Started(es, clock, sizes).objs|
    ensures var c := Started(es, clock, sizes);
      Registered(c, o) && exists k :: 0 <= k < |es| && JobDir(es[k]) && es[k].name == c.objs[o].job.id
  {
    var jobs := ScanOf(Entries(es), clock).value;
    StartedHolds(es, clock, sizes);
    CardOf(jobs, sizes, Started(es, clock, sizes), o);
    ScanNames(es, clock, |es|);
    assert Ids(jobs)[o] == jobs[o].id;
    NamesComeFromEntries(es, |es|, jobs[o].id);
  }
}
