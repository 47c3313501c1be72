/**
  The manager's objects and the bodies of its critical sections, as internal/app/manager.go
  runs them: fields updated in place, loops over the registry. Every method is proved to do to
  the abstract core exactly what the function of the same section in JobCore says; the machine
  of JobMachine interleaves those sections.
 */
module Manager {
  import opened Model
  import Spec = JobCore

  /** One in-flight removal; `name` stands for its identity. */
  class RemovalAttempt {
    ghost const name: nat
    var failed: bool
    var done: bool

    constructor (ghost name: nat)
      ensures this.name == name && !failed && !done
    {
      this.name, failed, done := name, false, false;
    }

    /** The error is set before the channel is closed; closing it twice would panic. */
    method Complete(err: bool)
      requires !done
      modifies this
      ensures done && failed == err
    {
      failed := err;
      done := true;
    }
  }

  /** The in-memory record of one video; `oid` names the object, `ver` counts job changes. */
  class JobState {
    const id: Id
    const createdAt: Time
    var title: string
    var duration: real
    var status: Status
    var size: int
    var error: string
    var order: nat
    var cancelled: bool
    var active: bool
    var fetching: bool
    var deleting: bool
    var titleTries: nat
    var removal: RemovalAttempt?
    ghost const oid: nat
    ghost var ver: nat

    constructor (j: Job, order: nat, ghost oid: nat, ghost ver: nat)
      ensures Record() == Spec.JobRec(j, order, false, false, false, false, 0, None, ver)
      ensures id == j.id && this.oid == oid
    {
      id, createdAt, title, duration := j.id, j.createdAt, j.title, j.duration;
      status, size, error, this.order := j.status, j.size, j.error, order;
      cancelled, active, fetching, deleting, titleTries, removal := false, false, false, false, 0, null;
      this.oid, this.ver := oid, ver;
    }

    function Snapshot(): Job
      reads this
    {
      Job(id, title, duration, status, size, createdAt, error)
    }

    ghost function Record(): Spec.JobRec
      reads this
    {
      Spec.JobRec(Snapshot(), order, cancelled, active, fetching, deleting, titleTries,
                  if removal == null then None else Some(removal.name), ver)
    }

    predicate Unfinished()
      reads this
      ensures Unfinished() == Model.Unfinished(Snapshot())
    {
      match status
      case Queued => true
      case Downloading => true
      case Processing => true
      case Verifying => true
      case Ready => false
      case Failed => false
    }

    method Fail(msg: string)
      modifies this
      ensures Record() == Spec.Fail(old(Record()), msg)
    {
      status, error := Failed, msg;
      ver := Spec.Bump(ver, old(Snapshot()), Snapshot());
    }

    method MoveTo(status: Status)
      modifies this
      ensures Record() == Spec.Put(old(Record()), old(Snapshot()).(status := status))
    {
      this.status := status;
      ver := Spec.Bump(ver, old(Snapshot()), Snapshot());
    }

    method Requeue(order: nat)
      modifies this
      ensures Record() == Spec.Put(old(Record()), old(Snapshot()).(status := Queued, error := "", size := 0))
                          .(order := order, cancelled := false)
    {
      status, error := Queued, "";
      size := 0;
      this.order := order;
      cancelled := false;
      ver := Spec.Bump(ver, old(Snapshot()), Snapshot());
    }

    method MarkDeleting(att: RemovalAttempt)
      modifies this
      ensures Record() == old(Record()).(removal := Some(att.name), deleting := true, cancelled := true)
    {
      removal, deleting := att, true;
      cancelled := true;
    }

    /** What the download's answer does to the job. */
    method Conclude(out: Spec.Outcome)
      modifies this
      ensures Record() == Spec.Put(old(Record()), Spec.FinishedJob(old(Snapshot()), out))
    {
      match out {
        case DownloadFailed(t, _, msg) =>
          status, error := Failed, msg;
          if t != "" && title == "" {
            title := t;
          }
        case Downloaded(t, d, bytes) =>
          if t != "" {
            title := t;
          }
          if d > 0.0 {
            duration := d;
          }
          status := Ready;
          size, error := bytes, "";
      }
      ver := Spec.Bump(ver, old(Snapshot()), Snapshot());
    }

    method SetTitle(t: string, d: real)
      modifies this
      ensures Record() == Spec.Put(old(Record()),
                                   old(Snapshot()).(title := t, duration := if d > 0.0 then d else old(duration)))
    {
      title := t;
      if d > 0.0 {
        duration := d;
      }
      ver := Spec.Bump(ver, old(Snapshot()), Snapshot());
    }

    method SetSize(bytes: int)
      modifies this
      ensures Record() == Spec.Put(old(Record()), old(Snapshot()).(size := bytes))
    {
      size := bytes;
      ver := Spec.Bump(ver, old(Snapshot()), Snapshot());
    }
  }

  /** What a caller of Submit or Retry is told. */
  datatype Answer = Shown(js: JobState, existing: bool) | Await(att: RemovalAttempt?) | Refused(why: Refusal)
  datatype Refusal = IsClosed | IsBusy | StorageFull | NotFound | Conflict

  datatype DeleteAnswer = Missing | Wait(att: RemovalAttempt?) | FinalizeHere(js: JobState, mine: RemovalAttempt)

  class Manager {
    var jobs: map<Id, JobState>
    var lastSeq: nat
    var closing: bool
    ghost var all: seq<JobState>  // every job object ever registered

    ghost predicate Valid()
      reads this, all
    {
      && (forall i | 0 <= i < |all| :: all[i].oid == i)
      && (forall id | id in jobs :: Known(jobs[id]) && jobs[id].id == id)
    }

    /** The object was registered at some time. */
    ghost predicate Known(js: JobState)
      reads this
    {
      js.oid < |all| && all[js.oid] == js
    }

    ghost function Abs(): Spec.Core
      reads this, all
    {
      Spec.Core(seq(|all|, i reads this, all requires 0 <= i < |all| => all[i].Record()),
                map id | id in jobs :: jobs[id].oid, lastSeq, closing)
    }

    constructor ()
      ensures Valid() && Abs() == Spec.Core([], map[], 0, false)
    {
      jobs, lastSeq, closing, all := map[], 0, false, [];
    }

    /** Only js was edited since: the core changed at its index only. */
    twostate lemma OnlyEdited(js: JobState)
      requires old(Valid()) && old(Known(js)) && unchanged(this)
      requires forall o | o in all && o != js :: unchanged(o)
      ensures Valid() && Known(js) && Abs() == Spec.SetObj(old(Abs()), js.oid, js.Record())
    {
      forall i | 0 <= i < |all| && i != js.oid ensures all[i].Record() == old(all[i].Record()) {
        assert all[i] in all && all[i] != js;
      }
      assert Abs().objs == old(Abs()).objs[js.oid := js.Record()];
    }

    /** js was added and registered since. */
    twostate lemma OnlyAdded(new js: JobState)
      requires old(Valid()) && js.oid == |old(all)| && all == old(all) + [js]
      requires jobs == old(jobs)[js.id := js] && unchanged(`closing)
      requires forall o | o in old(all) :: unchanged(o)
      ensures Valid()
      ensures var c := old(Abs());
        Abs() == Spec.Core(c.objs + [js.Record()], c.reg[js.id := js.oid], lastSeq, c.closing)
    {
      forall i | 0 <= i < |old(all)| ensures all[i] == old(all[i]) && all[i].Record() == old(all[i].Record()) {
        assert all[i] in old(all);
      }
      assert Abs().objs == old(Abs()).objs + [js.Record()];
      assert Abs().reg == old(Abs()).reg[js.id := js.oid];
    }

    /** The registry test made by every section that resumes work on a job. */
    predicate IsCurrent(js: JobState)
      reads this
    {
      js.id in jobs && jobs[js.id] == js
    }

    lemma CurrentIsRegistered(js: JobState)
      requires Valid() && Known(js)
      ensures js.oid < |Abs().objs| && Abs().objs[js.oid] == js.Record()
      ensures IsCurrent(js) == Spec.Registered(Abs(), js.oid)
    {
    }

    lemma RegisteredRecord(id: Id)
      requires Valid() && id in jobs
      ensures id in Abs().reg && Abs().reg[id] == jobs[id].oid < |Abs().objs|
      ensures Abs().objs[jobs[id].oid] == jobs[id].Record()
    {
    }

    // ---- restart ----

    /** Recover's loop; `sizes` holds the store's answers to VideoSize. */
    method Recover(scanned: seq<Job>, sizes: map<Id, Option<int>>)
      requires Valid() && forall j | j in scanned :: j.id in sizes
      modifies this
      ensures Valid() && Abs() == Spec.Recover(old(Abs()), scanned, sizes)
    {
      var i := 0;
      while i < |scanned|
        invariant 0 <= i <= |scanned| && Valid()
        invariant Spec.Recover(Abs(), scanned[i..], sizes) == Spec.Recover(old(Abs()), scanned, sizes)
      {
        assert scanned[i..][0] == scanned[i] && scanned[i..][1..] == scanned[i + 1..];
        RecoverOne(scanned[i], sizes[scanned[i].id]);
        i := i + 1;
      }
    }

    method RecoverOne(j: Job, size: Option<int>)
      requires Valid()
      modifies this
      ensures Valid()
      ensures Abs() == Spec.AddRecovered(old(Abs()), j, size)
    {
      var r := j;
      match j.status {
        case Downloading => r := r.(status := Failed, error := INTERRUPTED);
        case Processing => r := r.(status := Failed, error := INTERRUPTED);
        case Verifying => r := r.(status := Failed, error := INTERRUPTED);
        case Ready =>
          if size.None? || size.value == 0 {
            r := r.(status := Failed, error := MISSING_FILE);
          } else {
            r := r.(size := size.value);
          }
        case Queued =>
        case Failed =>
      }
      lastSeq := lastSeq + 1;
      ghost var ver := Spec.Bump(0, j, r);
      var js := new JobState(r, lastSeq, |all|, ver);
      all := all + [js];
      jobs := jobs[js.id := js];
      OnlyAdded(js);
    }

    // ---- admission ----

    predicate Counted(id: Id)
      requires id in jobs
      reads this, jobs[id]
    {
      !jobs[id].deleting && jobs[id].Unfinished()
    }

    lemma CountedIds()
      requires Valid()
      ensures Spec.UnfinishedIds(Abs()) == set id | id in jobs && Counted(id)
    {
      forall id ensures id in Spec.UnfinishedIds(Abs()) <==> id in jobs && Counted(id) {
        if id in jobs {
          RegisteredRecord(id);
        }
      }
    }

    method UnfinishedCount() returns (n: nat)
      requires Valid()
      ensures n == |Spec.UnfinishedIds(Abs())|
    {
      n := 0;
      var left := jobs.Keys;
      ghost var counted: set<Id> := {};
      while left != {}
        invariant left <= jobs.Keys
        invariant counted == (set id | id in jobs && id !in left && Counted(id)) && |counted| == n
        decreases left
      {
        var id :| id in left;
        if !jobs[id].deleting && jobs[id].Unfinished() {
          counted := counted + {id};
          n := n + 1;
        }
        left := left - {id};
      }
      CountedIds();
      assert counted == Spec.UnfinishedIds(Abs());
    }

    method NextSeq() returns (n: nat)
      requires Valid()
      modifies this`lastSeq
      ensures Valid() && n == lastSeq == old(lastSeq) + 1
      ensures Abs() == old(Abs()).(lastSeq := old(lastSeq) + 1)
    {
      lastSeq := lastSeq + 1;
      n := lastSeq;
    }

    /** The accepted half of requeueLocked: the job goes to the back of the queue. */
    method SendToBack(js: JobState)
      requires Valid() && Known(js)
      modifies this`lastSeq, js
      ensures Valid() && Known(js) && Abs() == Spec.Requeue(old(Abs()), js.oid)
    {
      CurrentIsRegistered(js);
      var s := NextSeq();
      label edit:
      js.Requeue(s);
      OnlyEdited@edit(js);
    }

    /** requeueLocked: restarts a failed job, or refuses when the queue is full. */
    method RequeueLocked(js: JobState) returns (ok: bool)
      requires Valid() && Known(js)
      modifies this`lastSeq, js
      ensures Valid() && Known(js)
      ensures ok == (|Spec.UnfinishedIds(old(Abs()))| < MAX_UNFINISHED)
      ensures Abs() == if ok then Spec.Requeue(old(Abs()), js.oid) else old(Abs())
    {
      var n := UnfinishedCount();
      ok := n < MAX_UNFINISHED;
      if ok {
        SendToBack(js);
      }
    }

    /** What the caller learns agrees with the abstract outcome. */
    ghost predicate SubmitAgrees(r: Answer, what: Spec.SubmitOut)
      reads this
    {
      match what
      case SubmitClosed => r == Refused(IsClosed)
      case SubmitAwait(att) => r.Await? && att == (if r.att == null then None else Some(r.att.name))
      case SubmitKnown(o) => r.Shown? && r.existing && Known(r.js) && r.js.oid == o
      case SubmitRequeued(o) => r.Shown? && r.existing && Known(r.js) && r.js.oid == o
      case SubmitBusy => r == Refused(IsBusy)
      case SubmitStorage => r == Refused(StorageFull)
      case SubmitNew(o) => r.Shown? && !r.existing && Known(r.js) && r.js.oid == o
    }

    /** One pass of Submit's loop; `saved` is the store's answer should a new job be saved. */
    method SubmitOnce(id: Id, now: Time, saved: bool) returns (r: Answer, ghost what: Spec.SubmitOut)
      requires Valid()
      modifies this, if id in jobs then {jobs[id]} else {}
      ensures Valid() && Spec.RegOk(old(Abs()))
      ensures (Abs(), what) == Spec.Submit(old(Abs()), id, now, saved)
      ensures SubmitAgrees(r, what)
    {
      what := Spec.Submit(Abs(), id, now, saved).1;
      if closing {
        return Refused(IsClosed), what;
      }
      if id in jobs {
        var js := jobs[id];
        RegisteredRecord(id);
        if js.deleting {
          return Await(js.removal), what;
        }
        if js.status != Failed {
          return Shown(js, true), what;
        }
        var ok := RequeueLocked(js);
        return if ok then Shown(js, true) else Refused(IsBusy), what;
      }
      r := SubmitNew(id, now, saved);
    }

    /** Submit's tail for a video without a card. */
    method SubmitNew(id: Id, now: Time, saved: bool) returns (r: Answer)
      requires Valid() && id !in jobs && !closing
      modifies this
      ensures Valid() && Spec.RegOk(old(Abs())) && id !in old(Abs()).reg
      ensures Abs() == Spec.Submit(old(Abs()), id, now, saved).0
      ensures SubmitAgrees(r, Spec.Submit(old(Abs()), id, now, saved).1)
    {
      var n := UnfinishedCount();
      if n >= MAX_UNFINISHED {
        return Refused(IsBusy);
      }
      var s := NextSeq();
      if !saved {
        return Refused(StorageFull);
      }
      label register:
      var js := new JobState(Job(id, "", 0.0, Queued, 0, now, ""), s, |all|, 0);
      all := all + [js];
      jobs := jobs[id := js];
      OnlyAdded@register(js);
      r := Shown(js, false);
    }

    ghost predicate RetryAgrees(r: Answer, what: Spec.RetryOut)
      reads this
    {
      match what
      case RetryClosed => r == Refused(IsClosed)
      case RetryNotFound => r == Refused(NotFound)
      case RetryConflict => r == Refused(Conflict)
      case RetryBusy => r == Refused(IsBusy)
      case RetryDone(o) => r.Shown? && Known(r.js) && r.js.oid == o
    }

    method Retry(id: Id) returns (r: Answer, ghost what: Spec.RetryOut)
      requires Valid()
      modifies this`lastSeq, if id in jobs then {jobs[id]} else {}
      ensures Valid() && Spec.RegOk(old(Abs()))
      ensures (Abs(), what) == Spec.Retry(old(Abs()), id)
      ensures RetryAgrees(r, what)
    {
      what := Spec.Retry(Abs(), id).1;
      if closing {
        return Refused(IsClosed), what;
      }
      if id !in jobs {
        return Refused(NotFound), what;
      }
      var js := jobs[id];
      RegisteredRecord(id);
      if js.deleting {
        return Refused(NotFound), what;
      }
      if js.status != Failed {
        return Refused(Conflict), what;
      }
      var ok := RequeueLocked(js);
      r := if ok then Shown(js, true) else Refused(IsBusy);
    }

    // ---- the pickers ----

    predicate Queueing(id: Id)
      requires id in jobs
      reads this, jobs[id]
    {
      jobs[id].status == Queued && !jobs[id].deleting && !jobs[id].active
    }

    lemma QueueingIsPickable(o: Spec.Oid)
      requires Valid() && o < |all|
      ensures Spec.Pickable(Abs(), o) <==> all[o].id in jobs && jobs[all[o].id] == all[o] && Queueing(all[o].id)
    {
      CurrentIsRegistered(all[o]);
    }

    /** pickQueuedLocked: the search for the smallest sequence number. */
    method PickQueued() returns (best: JobState?)
      requires Valid()
      ensures best != null ==> Known(best)
      ensures Spec.PickQueued(Abs(), if best == null then None else Some(best.oid))
    {
      best := null;
      var left := jobs.Keys;
      while left != {}
        invariant left <= jobs.Keys
        invariant best != null ==> best.id in jobs && jobs[best.id] == best && Queueing(best.id)
        invariant forall id | id in jobs && id !in left && Queueing(id) :: best != null && best.order <= jobs[id].order
        decreases left
      {
        var id :| id in left;
        var js := jobs[id];
        left := left - {id};
        if js.status == Queued && !js.deleting && !js.active && (best == null || js.order < best.order) {
          best := js;
        }
      }
      forall o | 0 <= o < |Abs().objs| && Spec.Pickable(Abs(), o)
        ensures best != null && best.order <= Abs().objs[o].order
      {
        QueueingIsPickable(o);
      }
      if best != null {
        QueueingIsPickable(best.oid);
      }
    }

    /** The download worker's claim: pick and mark active in one section. */
    method ClaimQueued() returns (js: JobState?)
      requires Valid() && !closing
      modifies jobs.Values
      ensures Valid() && (js != null ==> Known(js))
      ensures Spec.PickQueued(old(Abs()), if js == null then None else Some(js.oid))
      ensures Abs() == if js == null then old(Abs()) else Spec.StartDownload(old(Abs()), js.oid)
    {
      js := PickQueued();
      if js != null {
        CurrentIsRegistered(js);
        js.active := true;
        OnlyEdited(js);
      }
    }

    predicate Untitled(id: Id)
      requires id in jobs
      reads this, jobs[id]
    {
      jobs[id].title == "" && !jobs[id].fetching && !jobs[id].deleting
      && jobs[id].titleTries < TITLE_ATTEMPTS && jobs[id].Unfinished()
    }

    lemma UntitledIsPickable(o: Spec.Oid)
      requires Valid() && o < |all|
      ensures Spec.TitlePickable(Abs(), o) <==> all[o].id in jobs && jobs[all[o].id] == all[o] && Untitled(all[o].id)
    {
      CurrentIsRegistered(all[o]);
    }

    /** pickTitleLocked */
    method PickTitle() returns (best: JobState?)
      requires Valid()
      ensures best != null ==> Known(best)
      ensures Spec.PickTitle(Abs(), if best == null then None else Some(best.oid))
    {
      best := null;
      var left := jobs.Keys;
      while left != {}
        invariant left <= jobs.Keys
        invariant best != null ==> best.id in jobs && jobs[best.id] == best && Untitled(best.id)
        invariant forall id | id in jobs && id !in left && Untitled(id) :: best != null && best.order <= jobs[id].order
        decreases left
      {
        var id :| id in left;
        var js := jobs[id];
        left := left - {id};
        if js.title != "" || js.fetching || js.deleting || js.titleTries >= TITLE_ATTEMPTS || !js.Unfinished() {
          continue;
        }
        if best == null || js.order < best.order {
          best := js;
        }
      }
      forall o | 0 <= o < |Abs().objs| && Spec.TitlePickable(Abs(), o)
        ensures best != null && best.order <= Abs().objs[o].order
      {
        UntitledIsPickable(o);
      }
      if best != null {
        UntitledIsPickable(best.oid);
      }
    }

    method ClaimTitle() returns (js: JobState?)
      requires Valid() && !closing
      modifies jobs.Values
      ensures Valid() && (js != null ==> Known(js))
      ensures Spec.PickTitle(old(Abs()), if js == null then None else Some(js.oid))
      ensures Abs() == if js == null then old(Abs()) else Spec.StartFetch(old(Abs()), js.oid)
    {
      js := PickTitle();
      if js != null {
        CurrentIsRegistered(js);
        js.fetching := true;
        OnlyEdited(js);
      }
    }

    // ---- the download worker ----

    method BeginDownload(js: JobState)
      requires Valid() && Known(js)
      modifies js
      ensures Valid() && Known(js) && Abs() == Spec.BeginDownload(old(Abs()), js.oid)
    {
      CurrentIsRegistered(js);
      js.MoveTo(Downloading);
      OnlyEdited(js);
    }

    method Report(js: JobState, stage: Stage) returns (transition: bool)
      requires Valid() && Known(js)
      modifies js
      ensures Valid() && Known(js) && (Abs(), transition) == Spec.Report(old(Abs()), js.oid, stage)
    {
      CurrentIsRegistered(js);
      if !IsCurrent(js) {
        return false;
      }
      transition := false;
      if StatusForStage(stage) != js.status {
        js.MoveTo(StatusForStage(stage));
        transition := true;
        OnlyEdited(js);
      }
    }

    method FinishDownload(js: JobState, out: Spec.Outcome) returns (save: bool)
      requires Valid() && Known(js)
      modifies js
      ensures Valid() && Known(js) && (Abs(), save) == Spec.FinishDownload(old(Abs()), js.oid, out)
    {
      CurrentIsRegistered(js);
      if !IsCurrent(js) || js.deleting {
        return false;
      }
      if out.DownloadFailed? && out.canceled && closing {
        return false;
      }
      js.Conclude(out);
      OnlyEdited(js);
      save := true;
    }

    method ReleaseDownload(js: JobState) returns (finish: bool)
      requires Valid() && Known(js)
      modifies js
      ensures Valid() && Known(js) && (Abs(), finish) == Spec.ReleaseDownload(old(Abs()), js.oid)
    {
      CurrentIsRegistered(js);
      js.active := false;
      OnlyEdited(js);
      finish := js.deleting && !js.fetching;
    }

    // ---- title workers ----

    method TitleFetched(js: JobState, title: string, duration: real) returns (save: bool)
      requires Valid() && Known(js)
      modifies js
      ensures Valid() && Known(js) && (Abs(), save) == Spec.TitleFetched(old(Abs()), js.oid, title, duration)
    {
      CurrentIsRegistered(js);
      save := IsCurrent(js) && !js.deleting && js.title == "";
      if save {
        js.SetTitle(title, duration);
        OnlyEdited(js);
      }
    }

    method TitleUnsupported(js: JobState, msg: string) returns (save: bool)
      requires Valid() && Known(js)
      modifies js
      ensures Valid() && Known(js) && (Abs(), save) == Spec.TitleUnsupported(old(Abs()), js.oid, msg)
    {
      CurrentIsRegistered(js);
      save := IsCurrent(js) && !js.deleting && js.status == Queued;
      if save {
        js.Fail(msg);
        OnlyEdited(js);
      }
    }

    method TitleExhausted(js: JobState)
      requires Valid() && Known(js)
      modifies js
      ensures Valid() && Known(js) && Abs() == Spec.TitleExhausted(old(Abs()), js.oid)
    {
      CurrentIsRegistered(js);
      if IsCurrent(js) {
        js.titleTries := TITLE_ATTEMPTS;
        OnlyEdited(js);
      }
    }

    method ReleaseTitle(js: JobState) returns (finish: bool)
      requires Valid() && Known(js)
      modifies js
      ensures Valid() && Known(js) && (Abs(), finish) == Spec.ReleaseTitle(old(Abs()), js.oid)
    {
      CurrentIsRegistered(js);
      js.fetching := false;
      OnlyEdited(js);
      finish := js.deleting && !js.active;
    }

    // ---- saving ----

    /** saveCurrent's section under the global mutex. */
    method SnapshotToSave(js: JobState) returns (j: Option<Job>)
      requires Valid() && Known(js)
      ensures js.oid < |Abs().objs| && j == Spec.Snapshot(Abs(), js.oid)
    {
      CurrentIsRegistered(js);
      if !IsCurrent(js) || js.deleting {
        return None;
      }
      j := Some(js.Snapshot());
    }

    method MarkUnpersistable(js: JobState)
      requires Valid() && Known(js)
      modifies js
      ensures Valid() && Known(js) && Abs() == Spec.MarkUnpersistable(old(Abs()), js.oid)
    {
      CurrentIsRegistered(js);
      if IsCurrent(js) && !js.deleting {
        js.Fail(UNPERSISTABLE);
        OnlyEdited(js);
      }
    }

    // ---- deletion ----

    ghost predicate DeleteAgrees(r: DeleteAnswer, what: Spec.DeleteOut, a: nat)
      reads this
    {
      match what
      case DeleteNotFound => r == Missing
      case DeleteJoin(att) => r.Wait? && att == (if r.att == null then None else Some(r.att.name))
      case DeleteAwait(o) => r.Wait? && r.att != null && r.att.name == a
      case DeleteDirect(o) => r.FinalizeHere? && Known(r.js) && r.js.oid == o && r.mine.name == a
    }

    /** Delete's first section; `a` names the attempt it may allocate. */
    method Delete(id: Id, ghost a: nat) returns (r: DeleteAnswer, ghost what: Spec.DeleteOut)
      requires Valid()
      modifies if id in jobs then {jobs[id]} else {}
      ensures Valid() && Spec.RegOk(old(Abs()))
      ensures (Abs(), what) == Spec.Delete(old(Abs()), id, a)
      ensures DeleteAgrees(r, what, a)
    {
      what := Spec.Delete(Abs(), id, a).1;
      if id !in jobs {
        return Missing, what;
      }
      var js := jobs[id];
      RegisteredRecord(id);
      if js.deleting {
        return Wait(js.removal), what;
      }
      var att := new RemovalAttempt(a);
      label edit:
      js.MarkDeleting(att);
      OnlyEdited@edit(js);
      r := if js.active || js.fetching then Wait(att) else FinalizeHere(js, att);
    }

    /** finalizeDeletion's first section. */
    method Finalizable(js: JobState) returns (ok: bool, att: RemovalAttempt?)
      requires Valid() && Known(js)
      ensures ok == Spec.Finalizable(Abs(), js.oid) && att == js.removal
    {
      CurrentIsRegistered(js);
      ok, att := IsCurrent(js) && js.deleting, js.removal;
    }

    method Unregister(js: JobState)
      requires Valid() && Known(js)
      modifies this`jobs
      ensures Valid() && Known(js) && Abs() == Spec.Unregister(old(Abs()), js.oid)
    {
      CurrentIsRegistered(js);
      if IsCurrent(js) {
        jobs := jobs - {js.id};
        assert Abs().reg == old(Abs()).reg - {js.id};
      }
    }

    method Restore(js: JobState) returns (save: bool)
      requires Valid() && Known(js)
      modifies js
      ensures Valid() && Known(js) && (Abs(), save) == Spec.Restore(old(Abs()), js.oid)
    {
      CurrentIsRegistered(js);
      save := false;
      if IsCurrent(js) {
        js.deleting, js.removal := false, null;
        if js.Unfinished() {
          js.Fail(STUCK_FILES);
          save := true;
        }
        OnlyEdited(js);
      }
    }

    /** The section that ends a removal, and the closing of its attempt; `removed` is the store's answer. */
    method EndRemoval(js: JobState, att: RemovalAttempt, removed: bool) returns (save: bool)
      requires Valid() && Known(js) && !att.done
      modifies this`jobs, js, att
      ensures Valid() && Known(js) && att.done && att.failed == !removed
      ensures Abs() == if removed then Spec.Unregister(old(Abs()), js.oid) else Spec.Restore(old(Abs()), js.oid).0
      ensures save == (!removed && Spec.Restore(old(Abs()), js.oid).1)
    {
      save := false;
      if removed {
        Unregister(js);
      } else {
        save := Restore(js);
      }
      ghost var c := Abs();
      label ended:
      att.Complete(!removed);
      assert forall i | 0 <= i < |all| :: all[i].Record() == old@ended(all[i].Record());
      assert Abs().objs == c.objs;
    }

    /**
      finalizeDeletion, when no other section runs in between: the job leaves the registry, or
      comes back as a card, and whoever waits for its attempt is told which.
     */
    method FinalizeDeletion(js: JobState, removed: bool) returns (failed: bool, save: bool)
      requires Valid() && Known(js)
      requires Spec.Finalizable(Abs(), js.oid) ==> js.removal != null && !js.removal.done
      modifies this`jobs, js, js.removal
      ensures Valid() && Known(js)
      ensures var c, att := old(Abs()), old(js.removal);
        if !Spec.Finalizable(c, js.oid) then Abs() == c && !failed && !save
        else
          && att != null && att.done && att.failed == failed == !removed
          && Abs() == (if removed then Spec.Unregister(c, js.oid) else Spec.Restore(c, js.oid).0)
          && (removed ==> !Spec.Registered(Abs(), js.oid))
          && (!removed ==> Spec.Registered(Abs(), js.oid) && !js.deleting && !js.Unfinished())
    {
      var ok, att := Finalizable(js);
      if !ok {
        return false, false;
      }
      save := EndRemoval(js, att, removed);
      failed := !removed;
    }

    // ---- listing and shutdown ----

    ghost predicate Names(list: seq<JobState>, oids: set<Spec.Oid>)
      reads this
    {
      && (forall js | js in list :: Known(js) && js.oid in oids)
      && (forall o | o in oids :: o < |all| && all[o] in list)
    }

    lemma NamesMore(list: seq<JobState>, oids: set<Spec.Oid>, js: JobState)
      requires Names(list, oids) && Known(js)
      ensures Names(list + [js], oids + {js.oid})
    {
    }

    /** List's first section: the ready jobs, in the order the registry yields them. */
    method ReadyList() returns (ready: seq<JobState>)
      requires Valid()
      ensures Names(ready, Spec.ReadyJobs(Abs()))
    {
      ready := [];
      var left := jobs.Keys;
      while left != {}
        invariant left <= jobs.Keys
        invariant forall js | js in ready :: IsCurrent(js) && js.status == Ready
        invariant forall id | id in jobs && id !in left && jobs[id].status == Ready :: jobs[id] in ready
        decreases left
      {
        var id :| id in left;
        left := left - {id};
        if jobs[id].status == Ready {
          ready := ready + [jobs[id]];
        }
      }
      forall o | 0 <= o < |all| ensures o in Spec.ReadyJobs(Abs()) <==> IsCurrent(all[o]) && all[o].status == Ready {
        CurrentIsRegistered(all[o]);
      }
    }

    /** List's check of one ready job against the size the store reports. */
    method ListCheck(js: JobState, size: Option<int>) returns (save: bool, counted: int)
      requires Valid() && Known(js)
      modifies js
      ensures Valid() && Known(js) && (Abs(), save) == Spec.ListCheck(old(Abs()), js.oid, size)
      ensures counted ==
        if size.Some? && Spec.Registered(old(Abs()), js.oid) && !old(js.deleting) then size.value else 0
    {
      CurrentIsRegistered(js);
      save, counted := false, 0;
      if IsCurrent(js) && !js.deleting {
        if size.None? || size.value == 0 {
          js.Fail(MISSING_FILE);
          save := true;
        } else {
          js.SetSize(size.value);
          counted := size.value;
        }
        OnlyEdited(js);
      }
    }

    method CloseBegin() returns (already: bool)
      requires Valid()
      modifies this`closing
      ensures Valid() && already == old(closing) && Abs() == old(Abs()).(closing := true)
    {
      already := closing;
      closing := true;
      assert Abs().objs == old(Abs()).objs;
    }

    method InterruptOne(js: JobState) returns (hit: bool)
      requires Valid() && Known(js) && IsCurrent(js)
      modifies js
      ensures Valid() && Known(js) && hit == Spec.Interrupted(old(Abs()), js.oid)
      ensures Abs() == if hit then Spec.SetObj(old(Abs()), js.oid, Spec.Fail(old(Abs()).objs[js.oid], INTERRUPTED))
                       else old(Abs())
    {
      CurrentIsRegistered(js);
      hit := !js.deleting && Model.InPipeline(js.status);
      if hit {
        js.Fail(INTERRUPTED);
        OnlyEdited(js);
      }
    }

    lemma AbsRegOk()
      requires Valid()
      ensures Spec.RegOk(Abs()) && Abs().reg.Keys == jobs.Keys
    {
      forall id | id in Abs().reg ensures Abs().reg[id] < |Abs().objs| && Abs().objs[Abs().reg[id]].job.id == id {
        RegisteredRecord(id);
      }
    }

    /** Close's loop, with the cards in `left` still to visit. */
    ghost predicate Halfway(c: Spec.Core, left: set<Id>, interrupted: seq<JobState>)
      reads this, all
    {
      && Valid() && Spec.RegOk(c) && Abs() == InterruptSome(c, jobs.Keys - left)
      && Names(interrupted, InterruptedIn(c, jobs.Keys - left))
    }

    lemma HalfwayStart()
      requires Valid()
      ensures Halfway(Abs(), jobs.Keys, []) && Abs().reg.Keys == jobs.Keys
    {
      AbsRegOk();
      InterruptNone(Abs());
      assert jobs.Keys - jobs.Keys == {};
    }

    lemma HalfwayDone(c: Spec.Core, interrupted: seq<JobState>)
      requires Halfway(c, {}, interrupted) && c.reg.Keys == jobs.Keys
      ensures Valid() && Abs() == Spec.Interrupt(c) && Names(interrupted, Spec.InterruptedJobs(c))
    {
      assert jobs.Keys - {} == jobs.Keys;
      InterruptEvery(c, jobs.Keys);
    }

    method InterruptTurn(id: Id, left: set<Id>, done: seq<JobState>, ghost c: Spec.Core) returns (done': seq<JobState>)
      requires Halfway(c, left, done) && left <= jobs.Keys && id in left
      modifies jobs[id]
      ensures Halfway(c, left - {id}, done')
    {
      RegisteredRecord(id);
      Visited(jobs.Keys, left, id);
      InterruptNext(c, jobs.Keys - left, id);
      var hit := InterruptOne(jobs[id]);
      done' := done;
      if hit {
        NamesMore(done, InterruptedIn(c, jobs.Keys - left), jobs[id]);
        done' := done + [jobs[id]];
      }
    }

    method InterruptLoop(ghost c: Spec.Core) returns (interrupted: seq<JobState>)
      requires Halfway(c, jobs.Keys, [])
      modifies jobs.Values
      ensures Halfway(c, {}, interrupted)
    {
      interrupted := [];
      var left := jobs.Keys;
      while left != {}
        invariant left <= jobs.Keys && Halfway(c, left, interrupted)
        decreases left
      {
        var id :| id in left;
        interrupted := InterruptTurn(id, left, interrupted, c);
        left := left - {id};
      }
    }

    /** Close's last section: jobs the workers left in the pipeline become retryable. */
    method InterruptAll() returns (interrupted: seq<JobState>)
      requires Valid()
      modifies jobs.Values
      ensures Valid() && Abs() == Spec.Interrupt(old(Abs()))
      ensures Names(interrupted, Spec.InterruptedJobs(old(Abs())))
    {
      ghost var c := Abs();
      HalfwayStart();
      interrupted := InterruptLoop(c);
      HalfwayDone(c, interrupted);
    }
  }

  // ---- Close's loop over the registry, as far as it has come ----

  lemma Visited(ids: set<Id>, left: set<Id>, id: Id)
    requires left <= ids && id in left
    ensures ids - left + {id} == ids - (left - {id}) && id !in ids - left
  {
  }

  ghost function InterruptSome(c: Spec.Core, seen: set<Id>): Spec.Core {
    c.(objs := seq(|c.objs|, i requires 0 <= i < |c.objs| =>
                     if i in InterruptedIn(c, seen) then Spec.Fail(c.objs[i], INTERRUPTED) else c.objs[i]))
  }

  ghost function InterruptedIn(c: Spec.Core, seen: set<Id>): set<Spec.Oid> {
    set o | 0 <= o < |c.objs| && Spec.Interrupted(c, o) && c.objs[o].job.id in seen
  }

  lemma InterruptNone(c: Spec.Core)
    ensures InterruptSome(c, {}) == c && InterruptedIn(c, {}) == {}
  {
    assert InterruptSome(c, {}).objs == c.objs;
  }

  lemma InterruptNext(c: Spec.Core, seen: set<Id>, id: Id)
    requires Spec.RegOk(c) && id in c.reg && id !in seen
    ensures InterruptSome(c, seen).objs[c.reg[id]] == c.objs[c.reg[id]]
    ensures Spec.Interrupted(InterruptSome(c, seen), c.reg[id]) == Spec.Interrupted(c, c.reg[id])
    ensures InterruptedIn(c, seen + {id}) ==
      if Spec.Interrupted(c, c.reg[id]) then InterruptedIn(c, seen) + {c.reg[id]} else InterruptedIn(c, seen)
    ensures InterruptSome(c, seen + {id}) ==
      if Spec.Interrupted(c, c.reg[id])
      then Spec.SetObj(InterruptSome(c, seen), c.reg[id], Spec.Fail(c.objs[c.reg[id]], INTERRUPTED))
      else InterruptSome(c, seen)
  {
    var o := c.reg[id];
    assert InterruptedIn(c, seen + {id}) ==
           if Spec.Interrupted(c, o) then InterruptedIn(c, seen) + {o} else InterruptedIn(c, seen);
    assert InterruptSome(c, seen + {id}).objs ==
           if Spec.Interrupted(c, o)
           then InterruptSome(c, seen).objs[o := Spec.Fail(c.objs[o], INTERRUPTED)] else InterruptSome(c, seen).objs;
  }

  lemma InterruptEvery(c: Spec.Core, seen: set<Id>)
    requires seen == c.reg.Keys
    ensures InterruptSome(c, seen) == Spec.Interrupt(c) && InterruptedIn(c, seen) == Spec.InterruptedJobs(c)
  {
    assert InterruptedIn(c, seen) == Spec.InterruptedJobs(c);
    assert InterruptSome(c, seen).objs == Spec.Interrupt(c).objs;
  }
}
