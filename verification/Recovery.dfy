/** A restart: whatever the disk holds, a successful scan and Recover give a state runs can start from. */
module Recovery {
  import opened Model
  import opened DiskStore
  import opened JobCore
  import opened JobMachine
  import opened Invariant
  import opened Runs
  import opened Staleness

  const NOTHING := Core([], map[], 0, false)

  /** A recovered card: registered, at rest, queued, ready or failed, in listing order. */
  ghost predicate CardOk(c: Core, sizes: map<Id, Option<int>>, o: Oid)
    requires o < |c.objs|
  {
    var j := c.objs[o].job;
    && Registered(c, o) && Untried(c.objs[o]) && c.objs[o].order == o + 1
    && (j.status.Ready? ==> j.id in sizes && sizes[j.id] == Some(j.size) && j.size != 0)
  }

  ghost predicate Rebuilt(c: Core, sizes: map<Id, Option<int>>) {
    && RegOk(c) && !c.closing && c.lastSeq == |c.objs|
    && (forall o | 0 <= o < |c.objs| :: CardOk(c, sizes, o))
  }

  lemma RecoverOne(c: Core, sizes: map<Id, Option<int>>, j: Job)
    requires Rebuilt(c, sizes) && j.id in sizes && j.id !in c.reg
    ensures Rebuilt(AddRecovered(c, j, sizes[j.id]), sizes)
  {
    var c' := AddRecovered(c, j, sizes[j.id]);
    forall o | 0 <= o < |c'.objs| ensures CardOk(c', sizes, o) {
      if o < |c.objs| {
        assert CardOk(c, sizes, o);
      }
    }
  }

  lemma RestIsNew(c: Core, jobs: seq<Job>, sizes: map<Id, Option<int>>)
    requires jobs != [] && Distinct(Ids(jobs)) && forall j | j in jobs :: j.id in sizes && j.id !in c.reg
    ensures Distinct(Ids(jobs[1..]))
    ensures forall k | k in jobs[1..] :: k.id in sizes && k.id !in AddRecovered(c, jobs[0], sizes[jobs[0].id]).reg
  {
    var rest := jobs[1..];
    forall k | k in rest ensures k.id != jobs[0].id {
      var i :| 0 <= i < |rest| && rest[i] == k;
      assert Ids(jobs)[0] != Ids(jobs)[i + 1];
    }
    forall a, b | 0 <= a < b < |rest| ensures Ids(rest)[a] != Ids(rest)[b] {
      assert Ids(jobs)[a + 1] != Ids(jobs)[b + 1];
    }
  }

  /** Recover keeps one registered card for each scanned job, and what was there before. */
  lemma {:induction false} RecoverAll(c: Core, jobs: seq<Job>, sizes: map<Id, Option<int>>)
    requires Rebuilt(c, sizes) && Distinct(Ids(jobs))
    requires forall j | j in jobs :: j.id in sizes && j.id !in c.reg
    ensures Rebuilt(Recover(c, jobs, sizes), sizes)
    ensures Recover(c, jobs, sizes).reg.Keys == c.reg.Keys + set j | j in jobs :: j.id
    decreases |jobs|
  {
    if jobs == [] {
    } else {
      RecoverOne(c, sizes, jobs[0]);
      RestIsNew(c, jobs, sizes);
      RecoverAll(AddRecovered(c, jobs[0], sizes[jobs[0].id]), jobs[1..], sizes);
      assert jobs == [jobs[0]] + jobs[1..];
    }
  }

  /** In closed form: the scanned jobs follow the old objects, one each, in order. */
  lemma {:induction false} RecoverInOrder(c: Core, jobs: seq<Job>, sizes: map<Id, Option<int>>, i: nat)
    requires forall j | j in jobs :: j.id in sizes
    ensures |Recover(c, jobs, sizes).objs| == |c.objs| + |jobs| && Recover(c, jobs, sizes).objs[..|c.objs|] == c.objs
    ensures i < |jobs| ==>
              Recover(c, jobs, sizes).objs[|c.objs| + i] == RecoveredRec(jobs[i], sizes[jobs[i].id], c.lastSeq + 1 + i)
    decreases |jobs|
  {
    if jobs == [] {
    } else {
      var j := jobs[0];
      var c' := AddRecovered(c, j, sizes[j.id]);
      RecoverInOrder(c', jobs[1..], sizes, if i == 0 then 0 else i - 1);
      var objs := Recover(c, jobs, sizes).objs;
      assert objs[..|c.objs|] == objs[..|c'.objs|][..|c.objs|] && objs[|c.objs|] == objs[..|c'.objs|][|c.objs|];
    }
  }

  /** The videos whose metadata file is a proper record; garbage is not stored state. */
  function SoundIds(es: seq<Entry>): set<Id> {
    set i | 0 <= i < |es| && JobDir(es[i]) && es[i].meta.File? && WellFormed(es[i].meta.content, es[i].name) ::
      es[i].name
  }

  /** The records of the scanned jobs, as they were scanned. */
  ghost predicate ShelfOf(shelf: Shelf, c: Core, jobs: seq<Job>, sound: set<Id>) {
    && shelf.gone == {} && shelf.leftover == {} && shelf.disk.Keys == sound
    && (forall id | id in shelf.disk ::
          && id in c.reg && c.reg[id] < |jobs|
          && shelf.disk[id] == Stored(c.reg[id], 0, jobs[c.reg[id]]))
  }

  /** The core holds the scanned jobs as Recover leaves them, in order. */
  ghost predicate HoldsScanned(c: Core, jobs: seq<Job>, sizes: map<Id, Option<int>>) {
    && |c.objs| == |jobs|
    && (forall i | 0 <= i < |jobs| ::
          jobs[i].id in sizes && c.objs[i] == RecoveredRec(jobs[i], sizes[jobs[i].id], i + 1))
  }

  lemma RecoverHoldsScanned(jobs: seq<Job>, sizes: map<Id, Option<int>>)
    requires forall j | j in jobs :: j.id in sizes
    ensures HoldsScanned(Recover(NOTHING, jobs, sizes), jobs, sizes)
  {
    RecoverInOrder(NOTHING, jobs, sizes, 0);
    forall i | 0 <= i < |jobs|
      ensures Recover(NOTHING, jobs, sizes).objs[i] == RecoveredRec(jobs[i], sizes[jobs[i].id], i + 1)
    {
      RecoverInOrder(NOTHING, jobs, sizes, i);
    }
  }

  /**
    Any disk: when Scan succeeds, Recover yields unique cards under the directories' names,
    queued, ready or failed only, in increasing sequence numbers, ready only with a non-empty
    file of the recorded size; and that state is one the runs of the manager start from.
   */
  lemma RestartIsSound(es: seq<Entry>, clock: seq<Time>, sizes: map<Id, Option<int>>, s: State)
    requires DistinctEntries(es) && |clock| == |es| && ScanOf(Entries(es), clock).Some?
    requires forall j | j in ScanOf(Entries(es), clock).value :: j.id in sizes
    requires s.core == Recover(NOTHING, ScanOf(Entries(es), clock).value, sizes)
    requires s.threads == WORKERS && s.guard == Guard(map[], map[], [], false)
    requires ShelfOf(s.shelf, s.core, ScanOf(Entries(es), clock).value, SoundIds(es))
    ensures Rebuilt(s.core, sizes) && Init(s)
    ensures forall id :: id in s.core.reg <==> exists i :: 0 <= i < |es| && JobDir(es[i]) && es[i].name == id
  {
    var jobs := ScanOf(Entries(es), clock).value;
    ScanNames(es, clock, |es|);
    NamesDistinct(es, |es|);
    RecoverAll(NOTHING, jobs, sizes);
    RecoverHoldsScanned(jobs, sizes);
    RebuiltIsInit(s, jobs, sizes, SoundIds(es));
    forall id ensures id in s.core.reg <==> exists i :: 0 <= i < |es| && JobDir(es[i]) && es[i].name == id {
      NamesComeFromEntries(es, |es|, id);
      ScannedIds(jobs, id);
    }
  }

  lemma ScannedIds(jobs: seq<Job>, id: Id)
    ensures id in Ids(jobs) <==> id in set j | j in jobs :: j.id
  {
    if id in Ids(jobs) {
      var i :| 0 <= i < |jobs| && Ids(jobs)[i] == id;
      assert jobs[i] in jobs;
    }
    if j :| j in jobs && j.id == id {
      var i :| 0 <= i < |jobs| && jobs[i] == j;
      assert Ids(jobs)[i] == id;
    }
  }

  lemma RebuiltIsInit(s: State, jobs: seq<Job>, sizes: map<Id, Option<int>>, sound: set<Id>)
    requires Rebuilt(s.core, sizes) && HoldsScanned(s.core, jobs, sizes) && s.threads == WORKERS
    requires s.guard == Guard(map[], map[], [], false) && ShelfOf(s.shelf, s.core, jobs, sound)
    ensures Init(s)
  {
    forall o | 0 <= o < |s.core.objs|
      ensures s.core.objs[o].order == o + 1 && Registered(s.core, o) && Untried(s.core.objs[o])
    {
      assert CardOk(s.core, sizes, o);
    }
    forall id | id in s.shelf.disk ensures RecordOk(s, id) {
      assert CardOk(s.core, sizes, s.core.reg[id]);
    }
    forall o | 0 <= o < |s.core.objs| ensures RecordApart(s, o) {
    }
  }

  /** The sixth cause: what Recover edits it does not save, and what it does not edit is stored. */
  lemma RecoveredIsBehind(s: State, jobs: seq<Job>, sizes: map<Id, Option<int>>, sound: set<Id>, o: Oid)
    requires Rebuilt(s.core, sizes) && HoldsScanned(s.core, jobs, sizes) && o < |jobs|
    requires ShelfOf(s.shelf, s.core, jobs, sound)
    ensures IsStored(s, o) <==> jobs[o].id in sound && RecoveredJob(jobs[o], sizes[jobs[o].id]) == jobs[o]
  {
    assert CardOk(s.core, sizes, o);
  }
}
