/**
  writeFileSync and DiskStore.Save (internal/app/store.go) as single file-system steps, each of
  which may fail, with a crash possible between any two. Unsynced file contents may come back as
  anything, and unsynced directory entries in any state they had since the last directory sync.
 */
module AtomicFile {
  import opened Model

  type Byte = b: int | 0 <= b < 256
  type Bytes = seq<Byte>
  type Name = string

  datatype Inode = Inode(data: Bytes, synced: bool)

  /** `maybe` lists, for names touched since the last directory sync, every state they had. */
  datatype Dir = Dir(files: seq<Inode>, live: map<Name, nat>, maybe: map<Name, set<Option<nat>>>)

  function Target(d: Dir, name: Name): Option<nat> {
    if name in d.live then Some(d.live[name]) else None
  }

  function Targets(d: Dir, name: Name): set<Option<nat>> {
    if name in d.maybe then d.maybe[name] else {Target(d, name)}
  }

  function Read(d: Dir, name: Name): Option<Bytes> {
    if name in d.live && d.live[name] < |d.files| then Some(d.files[d.live[name]].data) else None
  }

  function Link(d: Dir, name: Name, i: nat): Dir {
    Dir(d.files, d.live[name := i], d.maybe[name := Targets(d, name) + {Some(i)}])
  }

  function Unlink(d: Dir, name: Name): Dir {
    Dir(d.files, d.live - {name}, d.maybe[name := Targets(d, name) + {None}])
  }

  /** A power loss and reboot. */
  ghost predicate Crash(d: Dir, d': Dir) {
    && |d'.files| == |d.files| && d'.maybe == map[]
    && (forall i | 0 <= i < |d.files| ::
          d'.files[i].synced && (d.files[i].synced ==> d'.files[i].data == d.files[i].data))
    && (forall name: Name :: Target(d', name) in Targets(d, name))
  }

  // ---- the steps of a write ----

  /** Where writeFileSync is; `tmp` is the temporary sibling and i its file. */
  datatype At =
    | Creating
    | Filling(tmp: Name, i: nat)
    | Flushing(tmp: Name, i: nat)
    | Shutting(tmp: Name, i: nat, failed: bool)
    | Permitting(tmp: Name, i: nat)
    | Publishing(tmp: Name, i: nat)
    | Cleaning(tmp: Name, ok: bool)
    | Ended(ok: bool)

  predicate WriteStep(d: Dir, at: At, name: Name, data: Bytes, d': Dir, at': At) {
    match at
    case Creating =>
      || (d' == d && at' == Ended(false))
      || (at'.Filling? && at'.tmp != name && at'.tmp !in d.live && at'.i == |d.files|
          && d' == Link(d.(files := d.files + [Inode([], false)]), at'.tmp, |d.files|))
    case Filling(tmp, i) =>
      && i < |d.files| && |d'.files| == |d.files| && d'.files[i].data <= data
      && d' == d.(files := d.files[i := Inode(d'.files[i].data, false)])
      && (at' == Shutting(tmp, i, true) || (at' == Flushing(tmp, i) && d'.files[i].data == data))
    case Flushing(tmp, i) =>
      && i < |d.files|
      && ((d' == d && at' == Shutting(tmp, i, true))
          || (d' == d.(files := d.files[i := d.files[i].(synced := true)]) && at' == Shutting(tmp, i, false)))
    case Shutting(tmp, i, failed) =>
      d' == d && (at' == Cleaning(tmp, false) || (!failed && at' == Permitting(tmp, i)))
    case Permitting(tmp, i) =>
      d' == d && (at' == Cleaning(tmp, false) || at' == Publishing(tmp, i))
    case Publishing(tmp, i) =>
      || (d' == d && at' == Cleaning(tmp, false))
      || (d' == Unlink(Link(d, name, i), tmp) && at' == Cleaning(tmp, true))
    case Cleaning(tmp, ok) =>
      at' == Ended(ok) && (d' == d || d' == Unlink(d, tmp))
    case Ended(_) => false
  }

  /** The state of a write: the directory and the position. */
  ghost predicate WriteRun(ds: seq<Dir>, ats: seq<At>, name: Name, data: Bytes) {
    && |ds| == |ats| > 0 && ats[0] == Creating
    && (forall k | 0 <= k < |ds| - 1 :: WriteStep(ds[k], ats[k], name, data, ds[k + 1], ats[k + 1]))
  }

  // ---- what survives ----

  predicate Durable1(d: Dir, t: Option<nat>, allowed: set<Option<Bytes>>) {
    match t
    case None => None in allowed
    case Some(i) => i < |d.files| && d.files[i].synced && Some(d.files[i].data) in allowed
  }

  /** Whatever the file was since the last directory sync, it was complete and is in `allowed`. */
  ghost predicate Durable(d: Dir, name: Name, allowed: set<Option<Bytes>>) {
    Target(d, name) in Targets(d, name) && forall t | t in Targets(d, name) :: Durable1(d, t, allowed)
  }

  lemma DurableSurvives(d: Dir, d': Dir, name: Name, allowed: set<Option<Bytes>>)
    requires Durable(d, name, allowed) && Crash(d, d')
    ensures Read(d', name) in allowed && Durable(d', name, {Read(d', name)})
  {
    assert Target(d', name) in Targets(d, name);
  }

  /** The temporary file, while the write works on it, is not what `name` stands for. */
  ghost predicate Apart(d: Dir, at: At, name: Name, data: Bytes) {
    match at
    case Creating => true
    case Filling(tmp, i) => tmp != name && i < |d.files| && Some(i) !in Targets(d, name)
    case Flushing(tmp, i) =>
      tmp != name && i < |d.files| && Some(i) !in Targets(d, name) && d.files[i].data == data
    case Shutting(tmp, i, failed) =>
      && tmp != name && i < |d.files| && Some(i) !in Targets(d, name)
      && (!failed ==> d.files[i] == Inode(data, true))
    case Permitting(tmp, i) => tmp != name && i < |d.files| && d.files[i] == Inode(data, true)
    case Publishing(tmp, i) => tmp != name && i < |d.files| && d.files[i] == Inode(data, true)
    case Cleaning(tmp, ok) => tmp != name
    case Ended(ok) => true
  }

  predicate Published(at: At) {
    (at.Cleaning? || at.Ended?) && at.ok
  }

  /** The file still reads as before, until the rename; afterwards it reads as `data`. */
  ghost predicate WriteOk(d: Dir, at: At, name: Name, data: Bytes, before: Option<Bytes>, olds: set<Option<Bytes>>) {
    && Apart(d, at, name, data)
    && Durable(d, name, olds + {Some(data)})
    && Read(d, name) == if Published(at) then Some(data) else before
  }

  lemma StepWrites(d: Dir, at: At, name: Name, data: Bytes, d': Dir, at': At, before: Option<Bytes>,
      olds: set<Option<Bytes>>)
    requires WriteOk(d, at, name, data, before, olds) && WriteStep(d, at, name, data, d', at')
    ensures WriteOk(d', at', name, data, before, olds)
  {
    if at.Publishing? && at'.ok {
      var linked := Link(d, name, at.i);
      assert Targets(d', name) == Targets(linked, name) == Targets(d, name) + {Some(at.i)};
    } else {
      assert Targets(d', name) == Targets(d, name);
      forall t | t in Targets(d', name) ensures Durable1(d', t, olds + {Some(data)}) {
        assert Durable1(d, t, olds + {Some(data)});
      }
    }
  }

  lemma {:induction false} RunWrites(ds: seq<Dir>, ats: seq<At>, name: Name, data: Bytes, olds: set<Option<Bytes>>,
      k: nat)
    requires WriteRun(ds, ats, name, data) && Durable(ds[0], name, olds) && k < |ds|
    ensures WriteOk(ds[k], ats[k], name, data, Read(ds[0], name), olds)
  {
    if k == 0 {
    } else {
      RunWrites(ds, ats, name, data, olds, k - 1);
      StepWrites(ds[k - 1], ats[k - 1], name, data, ds[k], ats[k], Read(ds[0], name), olds);
    }
  }

  /**
    A crash after any prefix of writeFileSync leaves the old contents or the complete new ones,
    never a mixture. (Old contents: what a crash before the write could have left.)
   */
  lemma CrashLeavesOldOrNew(ds: seq<Dir>, ats: seq<At>, name: Name, data: Bytes, olds: set<Option<Bytes>>, k: nat,
      d': Dir)
    requires WriteRun(ds, ats, name, data) && Durable(ds[0], name, olds) && k < |ds| && Crash(ds[k], d')
    ensures Read(d', name) in olds || Read(d', name) == Some(data)
  {
    RunWrites(ds, ats, name, data, olds, k);
    DurableSurvives(ds[k], d', name, olds + {Some(data)});
  }

  /** Without a crash: success means the new contents are in place, an error that the old ones still are. */
  lemma WriteAnswers(ds: seq<Dir>, ats: seq<At>, name: Name, data: Bytes, olds: set<Option<Bytes>>)
    requires WriteRun(ds, ats, name, data) && Durable(ds[0], name, olds) && ats[|ats| - 1].Ended?
    ensures Read(ds[|ds| - 1], name) == if ats[|ats| - 1].ok then Some(data) else Read(ds[0], name)
  {
    RunWrites(ds, ats, name, data, olds, |ds| - 1);
  }

  /** Other files are left alone, but for the temporary one. */
  lemma OthersUntouched(d: Dir, at: At, name: Name, data: Bytes, d': Dir, at': At, other: Name)
    requires WriteStep(d, at, name, data, d', at') && other != name
    requires other in d.live && d.live[other] < |d.files|
    requires at.Filling? || at.Flushing? ==> d.live[other] != at.i
    requires !at.Creating? && !at.Ended? ==> other != at.tmp
    ensures Target(d', other) == Target(d, other) && Read(d', other) == Read(d, other)
    ensures !at'.Creating? && !at'.Ended? ==> other != at'.tmp
    ensures at'.Filling? || at'.Flushing? ==> d'.live[other] != at'.i
  {
  }

  // ---- Save ----

  /** Save ends by syncing the directory; it answers nil only when that worked too. */
  predicate SaveEnds(d: Dir, wrote: bool, d': Dir, ok: bool) {
    if !wrote || !ok then d' == d && !ok else d' == d.(maybe := map[])
  }

  /**
    After a successful Save no crash brings the old record back. A failed one may still have
    put the new record in place: exactly when the rename was done and the sync was not.
   */
  lemma SaveIsDurable(ds: seq<Dir>, ats: seq<At>, name: Name, data: Bytes, olds: set<Option<Bytes>>, d': Dir, ok: bool)
    requires WriteRun(ds, ats, name, data) && Durable(ds[0], name, olds) && ats[|ats| - 1].Ended?
    requires SaveEnds(ds[|ds| - 1], ats[|ats| - 1].ok, d', ok)
    ensures ok ==> Durable(d', name, {Some(data)})
    ensures Read(d', name) == if ats[|ats| - 1].ok then Some(data) else Read(ds[0], name)
  {
    RunWrites(ds, ats, name, data, olds, |ds| - 1);
    if ok {
      assert Targets(d', name) == {Target(d', name)};
      assert Durable1(ds[|ds| - 1], Target(d', name), olds + {Some(data)});
    }
  }
}
