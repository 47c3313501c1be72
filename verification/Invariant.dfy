/**
  The manager's invariant: ownership, save locks, what each thread knows at its program
  counter, removal attempts, and the store. Quiet steps keep it (this file); the steps that move
  locks, removals or the registry follow in RemovalSteps.dfy and RegistrySteps.dfy.
 */
module Invariant {
  import opened Model
  import opened JobCore
  import opened JobMachine
  import opened Ownership
  import opened QuietSteps

  /** The job whose saveMu this thread holds. */
  function Holds(pc: Pc): Option<Oid> {
    if pc.Storing? && pc.at.Writing? then Some(pc.o)
    else if pc.Remover? && (pc.r.Removing? || pc.r.Removed? || pc.r.Stuck?) then Some(pc.o)
    else if pc.Closer? then Some(pc.o)
    else None
  }

  /** `lock` names exactly the holders: saveMu is exclusive. */
  ghost predicate LocksOk(th: map<Tid, Pc>, lock: map<Oid, Tid>) {
    && (forall o | o in lock :: lock[o] in th && Holds(th[lock[o]]) == Some(o))
    && (forall t | t in th && Holds(th[t]).Some? :: Holds(th[t]).value in lock && lock[Holds(th[t]).value] == t)
  }

  /** A save in progress: its snapshot is what the job was at version ver. */
  predicate WritingOk(s: State, o: Oid, base: nat, snap: Job, ver: nat) {
    && Registered(s.core, o) && o !in s.shelf.gone
    && snap.id == s.core.objs[o].job.id
    && base <= ver <= s.core.objs[o].ver
    && (ver == s.core.objs[o].ver ==> snap == s.core.objs[o].job)
    && (snap.id in s.shelf.disk ==> s.shelf.disk[snap.id].owner == o && s.shelf.disk[snap.id].ver <= ver)
  }

  predicate RemoverOk(s: State, o: Oid, r: RemoveAt) {
    && o < |s.core.objs|
    && (r.Removed? <==> o in s.shelf.gone)
    && (r.Removed? ==> s.core.objs[o].job.id !in s.shelf.disk)
    && (r.Removing? || r.Removed? || r.Stuck? ==> s.core.objs[o].removal == Some(r.a))
  }

  /** About to close its attempt, which nobody else can close. */
  predicate CloserOk(s: State, o: Oid, a: Aid, failed: bool) {
    && o < |s.core.objs| && a < |s.guard.atts|
    && s.guard.atts[a].o == o && !s.guard.atts[a].done
    && (if failed then s.core.objs[o].removal != Some(a) else o in s.shelf.gone && !Registered(s.core, o))
  }

  ghost predicate PcOk(s: State, pc: Pc) {
    match pc
    case Storing(o, base, at, k) =>
      && RestOk(s.core, k)
      && if at.Waiting? then VersionOk(s.core, o, base) else WritingOk(s, o, base, at.snap, at.ver)
    case Remover(o, r, _) => RemoverOk(s, o, r)
    case Closer(o, a, failed, _) => CloserOk(s, o, a, failed)
    case _ => PlainOk(s.core, s.guard.atts, pc)
  }

  ghost predicate PcsOk(s: State) {
    forall t | t in s.threads :: PcOk(s, s.threads[t])
  }

  /** An open attempt is either the job's current removal or about to be closed. */
  predicate AttemptOk(s: State, a: Aid)
    requires a < |s.guard.atts|
  {
    var att := s.guard.atts[a];
    && att.o < |s.core.objs|
    && (if att.done then !att.failed ==> att.o in s.shelf.gone && !Registered(s.core, att.o)
        else (Registered(s.core, att.o) && s.core.objs[att.o].removal == Some(a)) || AboutToClose(s, att.o, a))
  }

  predicate AboutToClose(s: State, o: Oid, a: Aid) {
    && o in s.guard.lock && s.guard.lock[o] in s.threads
    && var pc := s.threads[s.guard.lock[o]];
    pc.Closer? && pc.a == a
  }

  /** The current removal of a registered job is open and its own. */
  predicate CurrentOk(s: State, o: Oid)
    requires o < |s.core.objs|
  {
    Registered(s.core, o) && s.core.objs[o].removal.Some? ==>
      var a := s.core.objs[o].removal.value;
      a < |s.guard.atts| && s.guard.atts[a].o == o && !s.guard.atts[a].done
  }

  ghost predicate AttemptsOk(s: State) {
    && (forall a | 0 <= a < |s.guard.atts| :: AttemptOk(s, a))
    && (forall o | 0 <= o < |s.core.objs| :: CurrentOk(s, o))
  }

  /** A record belongs to the registered job of its video, or is a failed Submit's leftover. */
  predicate RecordOk(s: State, id: Id)
    requires id in s.shelf.disk
  {
    var rec := s.shelf.disk[id];
    if id in s.core.reg then
      var o := s.core.reg[id];
      && id !in s.shelf.leftover && rec.owner == o && o < |s.core.objs|
      && rec.job.id == id && rec.ver <= s.core.objs[o].ver
      && (rec.ver == s.core.objs[o].ver ==> rec.job == s.core.objs[o].job)
    else id in s.shelf.leftover
  }

  /** A removed object is out of the registry, or about to be taken out. */
  predicate GoneOk(s: State, o: Oid) {
    && o < |s.core.objs|
    && (Registered(s.core, o) ==>
          && o in s.guard.fin && s.guard.fin[o] in s.threads
          && var pc := s.threads[s.guard.fin[o]];
          pc.Remover? && pc.o == o && pc.r.Removed?)
  }

  ghost predicate ShelfOk(s: State) {
    && (forall id | id in s.shelf.disk :: RecordOk(s, id))
    && (forall id | id in s.shelf.leftover :: id in s.shelf.disk && id !in s.core.reg)
    && (forall o | o in s.shelf.gone :: GoneOk(s, o))
  }

  ghost predicate Inv(s: State) {
    && OwnershipOk(s)
    && LocksOk(s.threads, s.guard.lock)
    && PcsOk(s)
    && AttemptsOk(s)
    && ShelfOk(s)
    && !s.guard.crashed
  }

  // ---- quiet steps ----

  lemma QuietRegistered(c: Core, c': Core, o: Oid)
    requires QuietCore(c, c')
    ensures Registered(c', o) == Registered(c, o)
  {
    if o < |c.objs| {
      assert Edited(c.objs[o], c'.objs[o]);
    }
  }

  lemma QuietRoles(s: State, s': State)
    requires RolesOk(s.threads) && FinOk(s.threads, s.guard.fin) && LocksOk(s.threads, s.guard.lock) && Quiet(s, s')
    ensures RolesOk(s'.threads) && FinOk(s'.threads, s'.guard.fin) && LocksOk(s'.threads, s'.guard.lock)
  {
    forall t | t in s'.threads
      ensures if t in s.threads then Removal(s'.threads[t]) == Removal(s.threads[t]) &&
        Holds(s'.threads[t]) == Holds(s.threads[t])
              else Removal(s'.threads[t]).None? && Holds(s'.threads[t]).None?
    {
      assert QuietMove(s.threads, s'.core, s.guard.atts, t, s'.threads[t]);
    }
  }

  lemma QuietOwn(s: State, s': State, t: Tid)
    requires Quiet(s, s') && t in s'.threads
    ensures Own(s'.threads[t]) == if t in s.threads then Own(s.threads[t]) else None
  {
    assert QuietMove(s.threads, s'.core, s.guard.atts, t, s'.threads[t]);
  }

  lemma QuietOwners(s: State, s': State)
    requires RolesOk(s.threads) && RolesOk(s'.threads) && Quiet(s, s')
    requires OwnersOk(s.core, s.threads) && FlagsOk(s.core, s.threads)
    ensures OwnersOk(s'.core, s'.threads) && FlagsOk(s'.core, s'.threads)
  {
    QuietOwn(s, s', 0);
    QuietOwn(s, s', 1);
    QuietOwn(s, s', 2);
    forall t | t in s'.threads && Own(s'.threads[t]).Some?
      ensures Registered(s'.core, Own(s'.threads[t]).value) && OwnedBy(s'.core, t, Own(s'.threads[t]).value)
    {
      QuietOwn(s, s', t);
      QuietRegistered(s.core, s'.core, Own(s.threads[t]).value);
    }
  }

  lemma QuietOwnership(s: State, s': State)
    requires OwnershipOk(s) && LocksOk(s.threads, s.guard.lock) && Quiet(s, s')
    ensures OwnershipOk(s') && LocksOk(s'.threads, s'.guard.lock)
  {
    QuietRoles(s, s');
    QuietOwners(s, s');
    forall o | 0 <= o < |s.core.objs| ensures RemovalOk(s'.core, s'.guard.fin, o) {
      QuietRegistered(s.core, s'.core, o);
      assert RemovalOk(s.core, s.guard.fin, o);
    }
  }

  lemma QuietPc(s: State, s': State, pc: Pc)
    requires Quiet(s, s') && PcOk(s, pc)
    ensures PcOk(s', pc)
  {
    match pc
    case Storing(o, base, at, k) =>
      QuietRegistered(s.core, s'.core, o);
    case Remover(o, r, _) =>
    case Closer(o, a, failed, _) =>
      QuietRegistered(s.core, s'.core, o);
    case _ =>
  }

  lemma QuietPcs(s: State, s': State)
    requires PcsOk(s) && Quiet(s, s')
    ensures PcsOk(s')
  {
    forall t | t in s'.threads ensures PcOk(s', s'.threads[t]) {
      var pc := s'.threads[t];
      assert QuietMove(s.threads, s'.core, s.guard.atts, t, pc);
      if t in s.threads && pc == s.threads[t] {
        QuietPc(s, s', pc);
      }
    }
  }

  lemma QuietAttempts(s: State, s': State)
    requires AttemptsOk(s) && Quiet(s, s')
    ensures AttemptsOk(s')
  {
    forall a | 0 <= a < |s'.guard.atts| ensures AttemptOk(s', a) {
      var att := s.guard.atts[a];
      assert AttemptOk(s, a);
      QuietRegistered(s.core, s'.core, att.o);
      assert Edited(s.core.objs[att.o], s'.core.objs[att.o]);
      if AboutToClose(s, att.o, a) {
        assert QuietMove(s.threads, s'.core, s.guard.atts, s.guard.lock[att.o], s'.threads[s.guard.lock[att.o]]);
      }
    }
    forall o | 0 <= o < |s'.core.objs| ensures CurrentOk(s', o) {
      assert Edited(s.core.objs[o], s'.core.objs[o]) && CurrentOk(s, o);
      QuietRegistered(s.core, s'.core, o);
    }
  }

  lemma QuietShelf(s: State, s': State)
    requires RegOk(s.core) && ShelfOk(s) && Quiet(s, s')
    ensures ShelfOk(s')
  {
    forall id | id in s'.shelf.disk ensures RecordOk(s', id) {
      assert RecordOk(s, id);
      if id in s.core.reg {
        assert Edited(s.core.objs[s.core.reg[id]], s'.core.objs[s.core.reg[id]]);
      }
    }
    forall o | o in s'.shelf.gone ensures GoneOk(s', o) {
      assert GoneOk(s, o);
      QuietRegistered(s.core, s'.core, o);
      if Registered(s.core, o) {
        assert QuietMove(s.threads, s'.core, s.guard.atts, s.guard.fin[o], s'.threads[s.guard.fin[o]]);
      }
    }
  }

  lemma QuietKeeps(s: State, s': State)
    requires Inv(s) && Quiet(s, s')
    ensures Inv(s')
  {
    QuietOwnership(s, s');
    QuietPcs(s, s');
    QuietAttempts(s, s');
    QuietShelf(s, s');
  }

  // ---- frames for the steps that are not quiet ----

  /** Every thread but t and ch stays, or is woken. */
  ghost predicate OthersStay(th: map<Tid, Pc>, t: Tid, th': map<Tid, Pc>) {
    && (forall u | u in th && u != t :: u in th')
    && (forall u | u in th' && u != t :: u in th && (th'[u] == th[u] || th'[u] == Woken(th[u])))
  }

  /** What the holder of o's saveMu relies on; o may just have been marked for deletion. */
  predicate Untouched(s: State, s': State, o: Oid) {
    o < |s.core.objs| ==>
      && o < |s'.core.objs|
      && var r, r' := s.core.objs[o], s'.core.objs[o];
      && r'.job == r.job && r'.ver == r.ver
      && (r'.removal == r.removal || (r.removal.None? && r'.removal.Some? && r'.removal.value >= |s.guard.atts|))
      && Registered(s'.core, o) == Registered(s.core, o)
      && (o in s'.shelf.gone <==> o in s.shelf.gone)
  }

  predicate RecordKept(s: State, s': State, o: Oid) {
    o < |s.core.objs| ==>
      var id := s.core.objs[o].job.id;
      && (id in s'.shelf.disk <==> id in s.shelf.disk)
      && (id in s.shelf.disk ==> s'.shelf.disk[id] == s.shelf.disk[id])
  }

  /** Objects and attempts are only added; versions grow and closed attempts stay. */
  ghost predicate Grows(s: State, s': State) {
    && |s.core.objs| <= |s'.core.objs| && |s.guard.atts| <= |s'.guard.atts|
    && (forall o | 0 <= o < |s.core.objs| :: s.core.objs[o].ver <= s'.core.objs[o].ver)
    && (forall a | 0 <= a < |s.guard.atts| && s.guard.atts[a].done :: s'.guard.atts[a] == s.guard.atts[a])
  }

  /** What a step must leave alone for a thread at pc. */
  predicate PcSafe(s: State, s': State, pc: Pc) {
    && (Holds(pc).Some? ==> Untouched(s, s', Holds(pc).value) && (pc.Closer? || RecordKept(s, s', Holds(pc).value)))
    && (pc.Remover? ==> (pc.o in s'.shelf.gone <==> pc.o in s.shelf.gone))
    && (pc.Closer? && pc.a < |s.guard.atts| && pc.a < |s'.guard.atts| ==> s'.guard.atts[pc.a] == s.guard.atts[pc.a])
  }

  lemma PcFrame(s: State, s': State, pc: Pc)
    requires PcOk(s, pc) && Grows(s, s') && PcSafe(s, s', pc)
    ensures PcOk(s', pc)
  {
    match pc
    case Storing(o, base, at, k) =>
    case Remover(o, r, _) =>
    case Closer(o, a, failed, _) =>
    case _ =>
  }

  /** Thread t moves to a pc already shown fine; the others are safe from the step. */
  lemma PcsFrame(s: State, s': State, t: Tid)
    requires PcsOk(s) && Grows(s, s') && OthersStay(s.threads, t, s'.threads)
    requires t in s'.threads ==> PcOk(s', s'.threads[t])
    requires forall u | u in s.threads && u != t :: PcSafe(s, s', s.threads[u])
    ensures PcsOk(s')
  {
    forall u | u in s'.threads && u != t ensures PcOk(s', s'.threads[u]) {
      PcFrame(s, s', s.threads[u]);
    }
  }

  lemma PcsSame(s: State, s': State, t: Tid)
    requires PcsOk(s) && OthersStay(s.threads, t, s'.threads)
    requires s'.core == s.core && s'.guard.atts == s.guard.atts && s'.shelf == s.shelf
    requires t in s'.threads ==> PcOk(s', s'.threads[t])
    ensures PcsOk(s')
  {
    forall u | u in s'.threads && u != t ensures PcOk(s', s'.threads[u]) {
      PcSame(s, s', s.threads[u]);
    }
  }

  lemma PcSame(s: State, s': State, pc: Pc)
    requires PcOk(s, pc) && s'.core == s.core && s'.guard.atts == s.guard.atts && s'.shelf == s.shelf
    ensures PcOk(s', pc)
  {
  }
}
