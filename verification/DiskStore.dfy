/**
  The store's startup scan (internal/app/store.go): what a directory listing decodes to. Reading
  the disk and parsing JSON are inputs: a metadata file is absent, cannot be read, is garbage,
  or is an object whose status may be an unknown word.
 */
module DiskStore {
  import opened Model

  const ZERO_TIME: Time := 0  // the zero time: a missing creation time

  datatype Raw = Raw(
    id: string,
    title: string,
    duration: real,
    status: Option<Status>,
    size: int,
    createdAt: Time,
    error: string)

  datatype Content = Garbage | Record(raw: Raw)
  datatype Meta = NoFile | ReadError | File(content: Content)
  datatype Entry = Entry(name: string, isDir: bool, meta: Meta)
  datatype Listing = NoVideosDir | ListError | Entries(es: seq<Entry>)

  predicate IdChar(c: char) {
    'A' <= c <= 'Z' || 'a' <= c <= 'z' || '0' <= c <= '9' || c == '_' || c == '-'
  }

  predicate ValidId(name: string) {
    |name| == 11 && forall i | 0 <= i < |name| :: IdChar(name[i])
  }

  function Unreadable(id: Id, createdAt: Time, title: string): Job {
    Job(id, title, 0.0, Failed, 0, createdAt, UNREADABLE)
  }

  /** The record names its own directory, has a creation time and a known status. */
  predicate WellFormed(content: Content, id: Id) {
    content.Record? && content.raw.id == id && content.raw.createdAt != ZERO_TIME && content.raw.status.Some?
  }

  /** decodeJob: an invalid record still yields a card under the directory's ID. */
  function DecodeJob(content: Content, id: Id, now: Time): (r: (Job, bool))
    ensures r.0.id == id && r.1 == WellFormed(content, id)
    ensures !r.1 ==> r.0.status.Failed? && r.0.error == UNREADABLE
  {
    if content.Garbage? || content.raw.id != id || content.raw.createdAt == ZERO_TIME
    then (Unreadable(id, now, ""), false)
    else if content.raw.status.None? then (Unreadable(id, content.raw.createdAt, content.raw.title), false)
    else
      var raw := content.raw;
      (Job(id, raw.title, raw.duration, raw.status.value, raw.size, raw.createdAt, raw.error), true)
  }

  /** What Save writes. */
  function Encode(j: Job): Content {
    Record(Raw(j.id, j.title, j.duration, Some(j.status), j.size, j.createdAt, j.error))
  }

  /** A saved job is read back as it was, exactly when it has a creation time. */
  lemma SaveRoundTrip(j: Job, now: Time)
    ensures DecodeJob(Encode(j), j.id, now) == (j, true) <==> j.createdAt != ZERO_TIME
  {
  }

  predicate JobDir(e: Entry) {
    e.isDir && ValidId(e.name)
  }

  function JobOf(e: Entry, now: Time): Job {
    if e.meta.File? then DecodeJob(e.meta.content, e.name, now).0 else Unreadable(e.name, now, "")
  }

  /** Scan's answer for the first n entries. */
  function ScanFirst(es: seq<Entry>, clock: seq<Time>, n: nat): Option<seq<Job>>
    requires n <= |es| == |clock|
  {
    if n == 0 then Some([])
    else
      var before := ScanFirst(es, clock, n - 1);
      if before.None? || !JobDir(es[n - 1]) then before
      else if es[n - 1].meta.ReadError? then None
      else Some(before.value + [JobOf(es[n - 1], clock[n - 1])])
  }

  function ScanOf(l: Listing, clock: seq<Time>): Option<seq<Job>>
    requires l.Entries? ==> |l.es| == |clock|
  {
    match l
    case NoVideosDir => Some([])
    case ListError => None
    case Entries(es) => ScanFirst(es, clock, |es|)
  }

  /** Scan; clock[i] is the time should entry i need one. */
  method Scan(l: Listing, clock: seq<Time>) returns (jobs: Option<seq<Job>>)
    requires l.Entries? ==> |l.es| == |clock|
    ensures jobs == ScanOf(l, clock)
  {
    if l.NoVideosDir? {
      return Some([]);
    }
    if l.ListError? {
      return None;
    }
    var found: seq<Job> := [];
    for i := 0 to |l.es|
      invariant ScanFirst(l.es, clock, i) == Some(found)
    {
      var e := l.es[i];
      if !e.isDir || !ValidId(e.name) {
        continue;
      }
      match e.meta {
        case NoFile => found := found + [Unreadable(e.name, clock[i], "")];
        case ReadError =>
          FailureSticks(l.es, clock, i + 1, |l.es|);
          return None;
        case File(content) =>
          var (j, _) := DecodeJob(content, e.name, clock[i]);
          found := found + [j];
      }
    }
    jobs := Some(found);
  }

  lemma {:induction false} FailureSticks(es: seq<Entry>, clock: seq<Time>, n: nat, m: nat)
    requires n <= m <= |es| == |clock| && ScanFirst(es, clock, n).None?
    ensures ScanFirst(es, clock, m).None?
  {
    if n == m {
    } else {
      FailureSticks(es, clock, n, m - 1);
    }
  }

  predicate BadDir(e: Entry) {
    JobDir(e) && e.meta.ReadError?
  }

  /** A scan fails exactly when the listing or the record of some job directory cannot be read. */
  lemma {:induction false} ScanFails(es: seq<Entry>, clock: seq<Time>, n: nat)
    requires n <= |es| == |clock|
    ensures ScanFirst(es, clock, n).None? <==> exists i | 0 <= i < n :: BadDir(es[i])
  {
    if n == 0 {
    } else {
      ScanFails(es, clock, n - 1);
      if BadDir(es[n - 1]) {
        assert exists i | 0 <= i < n :: BadDir(es[i]);
      } else if i :| 0 <= i < n && BadDir(es[i]) {
        assert i < n - 1;
      }
    }
  }

  /** The directories that stand for jobs, in listing order. */
  function JobNames(es: seq<Entry>, n: nat): seq<Id>
    requires n <= |es|
  {
    if n == 0 then [] else JobNames(es, n - 1) + if JobDir(es[n - 1]) then [es[n - 1].name] else []
  }

  ghost predicate Distinct(names: seq<Id>) {
    forall i, j | 0 <= i < j < |names| :: names[i] != names[j]
  }

  ghost predicate DistinctEntries(es: seq<Entry>) {
    forall i, j | 0 <= i < j < |es| :: es[i].name != es[j].name
  }

  function Ids(jobs: seq<Job>): (ids: seq<Id>)
    ensures |ids| == |jobs| && forall i | 0 <= i < |jobs| :: ids[i] == jobs[i].id
  {
    seq(|jobs|, i requires 0 <= i < |jobs| => jobs[i].id)
  }

  /** One card for each job directory, none lost and none doubled, under the directory's name. */
  lemma {:induction false} ScanNames(es: seq<Entry>, clock: seq<Time>, n: nat)
    requires n <= |es| == |clock| && ScanFirst(es, clock, n).Some?
    ensures Ids(ScanFirst(es, clock, n).value) == JobNames(es, n)
  {
    if n == 0 {
    } else {
      ScanNames(es, clock, n - 1);
    }
  }

  lemma {:induction false} NamesComeFromEntries(es: seq<Entry>, n: nat, id: Id)
    requires n <= |es|
    ensures id in JobNames(es, n) <==> exists i :: 0 <= i < n && JobDir(es[i]) && es[i].name == id
  {
    if n == 0 {
    } else {
      NamesComeFromEntries(es, n - 1, id);
    }
  }

  lemma {:induction false} NamesDistinct(es: seq<Entry>, n: nat)
    requires n <= |es| && DistinctEntries(es)
    ensures Distinct(JobNames(es, n))
  {
    if n == 0 {
    } else {
      NamesDistinct(es, n - 1);
      NamesComeFromEntries(es, n - 1, es[n - 1].name);
    }
  }
}
