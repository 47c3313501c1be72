/** The steps of finalizeDeletion keep the invariant. */
module RemovalSteps {
  import opened Model
  import opened JobCore
  import opened JobMachine
  import opened Ownership
  import opened Invariant
  import opened LockSteps

  /** Thread t moves on within its removal; nothing else happens. */
  lemma MoveKeeps(s: State, s': State, t: Tid)
    requires Inv(s) && s'.core == s.core && s'.shelf == s.shelf && s'.guard == s.guard
    requires t in s.threads && t in s'.threads && OthersStay(s.threads, t, s'.threads)
    requires RoleOk(t, s'.threads[t]) && PcOk(s', s'.threads[t])
    requires Own(s'.threads[t]) == Own(s.threads[t]) && Removal(s'.threads[t]) == Removal(s.threads[t])
    requires Holds(s'.threads[t]) == Holds(s.threads[t])
    requires !s.threads[t].Closer? && !(s.threads[t].Remover? && s.threads[t].r.Removed?)
    ensures Inv(s')
  {
    OwnershipMove(s, s', t);
    LockKept(s.threads, s.guard.lock, t, s'.threads);
    PcsSame(s, s', t);
    AttemptsMove(s, s', t);
    ShelfMove(s, s', t);
  }

  lemma AnnounceKeeps(s: State, t: Tid, s': State)
    requires Inv(s) && RemoveNext(s, t, Announce, s')
    ensures Inv(s')
  {
    assert RoleOk(t, s.threads[t]) && PcOk(s, s.threads[t]);
    MoveKeeps(s, s', t);
  }

  /** finalizeDeletion's early return is dead code, and the attempt it completes exists. */
  lemma CheckFinds(s: State, t: Tid)
    requires OwnershipOk(s) && PcsOk(s) && t in s.threads && s.threads[t].Remover?
    ensures s.threads[t].o < |s.core.objs| && Finalizable(s.core, s.threads[t].o)
    ensures s.core.objs[s.threads[t].o].removal.Some?
  {
    HolderRegistered(s, t);
    assert RemovalOk(s.core, s.guard.fin, s.threads[t].o);
  }

  lemma CheckKeeps(s: State, t: Tid, s': State)
    requires Inv(s) && RemoveNext(s, t, Check, s')
    ensures Inv(s')
  {
    CheckFinds(s, t);
    assert RoleOk(t, s.threads[t]) && PcOk(s, s.threads[t]);
    TakeKeeps(s, s', t, s.threads[t].o);
  }

  // ---- the store's answer ----

  predicate IsAnswer(rm: RemoveStep) {
    rm.RemoveOk? || rm.RemoveFailed?
  }

  lemma AnswerPcs(s: State, t: Tid, rm: RemoveStep, s': State)
    requires Inv(s) && RemoveNext(s, t, rm, s') && IsAnswer(rm)
    ensures PcsOk(s') && LocksOk(s'.threads, s'.guard.lock)
  {
    HolderRegistered(s, t);
    AnswerFacts(s, t, rm, s');
    LockKept(s.threads, s.guard.lock, t, s'.threads);
    forall u | u in s.threads && u != t ensures PcSafe(s, s', s.threads[u]) {
      HolderRegistered(s, u);
      StoreSafe(s, s', s.threads[t].o, s.threads[u]);
    }
    PcsFrame(s, s', t);
  }

  /** What the answer changes: t's place and the record and removal of its own job. */
  lemma AnswerFacts(s: State, t: Tid, rm: RemoveStep, s': State)
    requires RemoveNext(s, t, rm, s') && IsAnswer(rm) && PcOk(s, s.threads[t])
    ensures var o := s.threads[t].o;
      && s'.core == s.core && s'.guard == s.guard && o < |s.core.objs| && Holds(s.threads[t]) == Some(o)
      && s'.shelf.disk - {s.core.objs[o].job.id} == s.shelf.disk - {s.core.objs[o].job.id}
      && (forall p | p != o :: p in s'.shelf.gone <==> p in s.shelf.gone)
      && t in s'.threads && PcOk(s', s'.threads[t]) && Holds(s'.threads[t]) == Some(o)
      && OthersStay(s.threads, t, s'.threads)
  {
  }

  lemma AnswerShelf(s: State, t: Tid, rm: RemoveStep, s': State)
    requires Inv(s) && RemoveNext(s, t, rm, s') && IsAnswer(rm)
    ensures ShelfOk(s')
  {
    HolderRegistered(s, t);
    AnswerRecords(s, s');
    AnswerGone(s, t, rm, s');
  }

  lemma AnswerRecords(s: State, s': State)
    requires ShelfOk(s) && s'.core == s.core && s'.shelf.leftover == s.shelf.leftover
    requires forall id | id in s'.shelf.disk :: id in s.shelf.disk && s'.shelf.disk[id] == s.shelf.disk[id]
    requires forall id | id in s.shelf.disk && id !in s'.shelf.disk :: id in s.core.reg
    ensures forall id | id in s'.shelf.disk :: RecordOk(s', id)
    ensures forall id | id in s'.shelf.leftover :: id in s'.shelf.disk && id !in s'.core.reg
  {
    forall id | id in s'.shelf.disk ensures RecordOk(s', id) {
      assert RecordOk(s, id);
    }
  }

  lemma AnswerGone(s: State, t: Tid, rm: RemoveStep, s': State)
    requires FinOk(s.threads, s.guard.fin) && ShelfOk(s) && RemoveNext(s, t, rm, s') && IsAnswer(rm)
    requires s.threads[t].o in s.guard.fin && s.guard.fin[s.threads[t].o] == t
    ensures forall o | o in s'.shelf.gone :: GoneOk(s', o)
  {
    forall o | o in s'.shelf.gone ensures GoneOk(s', o) {
      assert o in s.shelf.gone ==> GoneOk(s, o);
    }
  }

  lemma AnswerKeeps(s: State, t: Tid, rm: RemoveStep, s': State)
    requires Inv(s) && RemoveNext(s, t, rm, s') && IsAnswer(rm)
    ensures Inv(s')
  {
    assert RoleOk(t, s.threads[t]);
    OwnershipMove(s, s', t);
    AnswerPcs(s, t, rm, s');
    AttemptsMove(s, s', t);
    AnswerShelf(s, t, rm, s');
  }

  // ---- ending a removal ----

  /** The core after a removal ended: only o's entry and flags differ, o has no owner. */
  ghost predicate Ended(c: Core, o: Oid, c': Core) {
    && |c'.objs| == |c.objs| && Registered(c, o)
    && (forall p | 0 <= p < |c.objs| && p != o :: c'.objs[p] == c.objs[p])
    && c'.objs[o].job.id == c.objs[o].job.id && !c'.objs[o].active && !c'.objs[o].fetching
    && c.objs[o].ver <= c'.objs[o].ver
    && (forall id | id in c'.reg :: id in c.reg && c'.reg[id] == c.reg[id])
    && (forall id | id in c.reg && id != c.objs[o].job.id :: id in c'.reg)
    && (if Registered(c', o) then !c'.objs[o].deleting && c'.objs[o].removal.None?
        else c'.objs == c.objs && c.objs[o].job.id !in c'.reg)
  }

  /** Facts shared by TakeOut and GiveBack: thread t, the remover of o, becomes its closer. */
  ghost predicate EndStep(s: State, t: Tid, o: Oid, a: Aid, failed: bool, f: FinFor, s': State) {
    && t in s.threads && s.threads[t] == Remover(o, if failed then Stuck(a) else Removed(a), f)
    && Ended(s.core, o, s'.core) && Registered(s'.core, o) == failed
    && s'.shelf == s.shelf && s'.guard == s.guard.(fin := s.guard.fin - {o})
    && t in s'.threads && s'.threads[t] == Closer(o, a, failed, f)
    && (forall u | u in s.threads && u != t :: u in s'.threads && s'.threads[u] == s.threads[u])
    && (forall u | u in s'.threads && u !in s.threads :: s'.threads[u] == ToSave(s'.core, o, Detached))
    && (failed ==> RecordStays(s.core.objs[o], s'.core.objs[o]))
  }

  predicate RecordStays(r: JobRec, r': JobRec) {
    r'.ver > r.ver || (r'.ver == r.ver && r'.job == r.job)
  }

  lemma UnregisterEnds(c: Core, o: Oid)
    requires RegOk(c) && Registered(c, o) && !Owned(c, o)
    ensures Ended(c, o, Unregister(c, o)) && !Registered(Unregister(c, o), o)
  {
  }

  lemma RestoreEnds(c: Core, o: Oid)
    requires RegOk(c) && Registered(c, o) && !Owned(c, o)
    ensures Ended(c, o, Restore(c, o).0) && Registered(Restore(c, o).0, o)
    ensures RecordStays(c.objs[o], Restore(c, o).0.objs[o])
  {
  }

  lemma TakeOutFacts(s: State, t: Tid, s': State)
    requires RegOk(s.core) && RemoveNext(s, t, TakeOut, s')
    requires Registered(s.core, s.threads[t].o) && !Owned(s.core, s.threads[t].o)
    ensures EndStep(s, t, s.threads[t].o, s.threads[t].r.a, false, s.threads[t].f, s')
  {
    UnregisterEnds(s.core, s.threads[t].o);
  }

  lemma GiveBackFacts(s: State, t: Tid, ch: Tid, s': State)
    requires RegOk(s.core) && RemoveNext(s, t, GiveBack(ch), s')
    requires Registered(s.core, s.threads[t].o) && !Owned(s.core, s.threads[t].o)
    ensures EndStep(s, t, s.threads[t].o, s.threads[t].r.a, true, s.threads[t].f, s')
  {
    RestoreEnds(s.core, s.threads[t].o);
  }

  lemma EndFacts(s: State, t: Tid, rm: RemoveStep, s': State)
    requires Inv(s) && RemoveNext(s, t, rm, s') && (rm.TakeOut? || rm.GiveBack?)
    ensures EndStep(s, t, s.threads[t].o, s.threads[t].r.a, rm.GiveBack?, s.threads[t].f, s')
  {
    HolderRegistered(s, t);
    assert RemovalOk(s.core, s.guard.fin, s.threads[t].o);
    if rm.TakeOut? { TakeOutFacts(s, t, s'); } else { GiveBackFacts(s, t, rm.ch, s'); }
  }

  lemma EndRegistered(c: Core, o: Oid, c': Core, p: Oid)
    requires Ended(c, o, c') && p != o && RegOk(c)
    ensures Registered(c', p) == Registered(c, p)
  {
  }

  lemma EndRoles(s: State, t: Tid, o: Oid, a: Aid, failed: bool, f: FinFor, s': State)
    requires RolesOk(s.threads) && FinOk(s.threads, s.guard.fin) && EndStep(s, t, o, a, failed, f, s')
    ensures RolesOk(s'.threads) && FinOk(s'.threads, s'.guard.fin)
  {
    assert RoleOk(t, s.threads[t]);
    assert Removal(s.threads[t]) == Some(o);
    forall u | u in s'.threads ensures RoleOk(u, s'.threads[u]) {
      assert u in s.threads ==> RoleOk(u, s.threads[u]);
    }
    forall u | u in s'.threads && Removal(s'.threads[u]).Some?
      ensures Removal(s'.threads[u]).value in s'.guard.fin && s'.guard.fin[Removal(s'.threads[u]).value] == u
    {
      assert u in s.threads && u != t;
    }
  }

  lemma EndOwner(s: State, t: Tid, o: Oid, a: Aid, failed: bool, f: FinFor, s': State, u: Tid)
    requires EndStep(s, t, o, a, failed, f, s') && u in s'.threads && OwnersOk(s.core, s.threads) && !Owned(s.core, o)
    ensures if u in s.threads then Own(s'.threads[u]) == Own(s.threads[u]) else Own(s'.threads[u]).None?
    ensures Own(s'.threads[u]) != Some(o)
  {
  }

  lemma EndOwners(s: State, t: Tid, o: Oid, a: Aid, failed: bool, f: FinFor, s': State)
    requires RolesOk(s.threads) && OwnersOk(s.core, s.threads) && FlagsOk(s.core, s.threads) && RegOk(s.core)
    requires EndStep(s, t, o, a, failed, f, s') && RolesOk(s'.threads)
    requires Registered(s.core, o) && o in s.guard.fin && RemovalOk(s.core, s.guard.fin, o)
    ensures OwnersOk(s'.core, s'.threads) && FlagsOk(s'.core, s'.threads)
  {
    forall u | u in s'.threads && Own(s'.threads[u]).Some?
      ensures Registered(s'.core, Own(s'.threads[u]).value) && OwnedBy(s'.core, u, Own(s'.threads[u]).value)
    {
      EndOwner(s, t, o, a, failed, f, s', u);
      EndRegistered(s.core, o, s'.core, Own(s.threads[u]).value);
    }
    EndOwner(s, t, o, a, failed, f, s', 0);
    EndOwner(s, t, o, a, failed, f, s', 1);
    EndOwner(s, t, o, a, failed, f, s', 2);
  }

  lemma EndOwnership(s: State, t: Tid, o: Oid, a: Aid, failed: bool, f: FinFor, s': State)
    requires Inv(s) && EndStep(s, t, o, a, failed, f, s')
    ensures OwnershipOk(s')
  {
    HolderRegistered(s, t);
    EndRoles(s, t, o, a, failed, f, s');
    assert RemovalOk(s.core, s.guard.fin, o);
    EndOwners(s, t, o, a, failed, f, s');
    EndRemovals(s, t, o, a, failed, f, s');
  }

  lemma EndRemovals(s: State, t: Tid, o: Oid, a: Aid, failed: bool, f: FinFor, s': State)
    requires RegOk(s.core) && RemovalsOk(s.core, s.guard.fin) && EndStep(s, t, o, a, failed, f, s')
    requires o in s.guard.fin && Registered(s.core, o)
    ensures RegOk(s'.core) && RemovalsOk(s'.core, s'.guard.fin)
  {
    forall p | 0 <= p < |s'.core.objs| ensures RemovalOk(s'.core, s'.guard.fin, p) {
      assert RemovalOk(s.core, s.guard.fin, p);
      if p != o {
        EndRegistered(s.core, o, s'.core, p);
      }
    }
  }

  lemma EndLocks(s: State, t: Tid, o: Oid, a: Aid, failed: bool, f: FinFor, s': State)
    requires LocksOk(s.threads, s.guard.lock) && EndStep(s, t, o, a, failed, f, s')
    ensures LocksOk(s'.threads, s'.guard.lock)
  {
  }

  /** The finalizer itself, now about to close its attempt. */
  lemma EndPc(s: State, t: Tid, o: Oid, a: Aid, failed: bool, f: FinFor, s': State)
    requires EndStep(s, t, o, a, failed, f, s')
    requires PcOk(s, s.threads[t]) && o < |s.core.objs| && CurrentOk(s, o) && Registered(s.core, o)
    ensures PcOk(s', s'.threads[t])
  {
  }

  lemma EndPcs(s: State, t: Tid, o: Oid, a: Aid, failed: bool, f: FinFor, s': State)
    requires Inv(s) && EndStep(s, t, o, a, failed, f, s')
    ensures PcsOk(s') && LocksOk(s'.threads, s'.guard.lock)
  {
    HolderRegistered(s, t);
    EndLocks(s, t, o, a, failed, f, s');
    assert PcOk(s, s.threads[t]) && CurrentOk(s, o);
    EndPc(s, t, o, a, failed, f, s');
    forall u | u in s'.threads && u != t ensures PcOk(s', s'.threads[u]) {
      EndOther(s, t, o, a, failed, f, s', u);
    }
  }

  lemma EndOther(s: State, t: Tid, o: Oid, a: Aid, failed: bool, f: FinFor, s': State, u: Tid)
    requires RegOk(s.core) && LocksOk(s.threads, s.guard.lock) && PcsOk(s) && EndStep(s, t, o, a, failed, f, s')
    requires u in s'.threads && u != t && o < |s.core.objs|
    ensures PcOk(s', s'.threads[u])
  {
    if u in s.threads {
      EndSafe(s, t, o, a, failed, f, s', u);
      assert PcOk(s, s.threads[u]);
      PcFrame(s, s', s.threads[u]);
    }
  }

  lemma EndSafe(s: State, t: Tid, o: Oid, a: Aid, failed: bool, f: FinFor, s': State, u: Tid)
    requires RegOk(s.core) && LocksOk(s.threads, s.guard.lock) && EndStep(s, t, o, a, failed, f, s')
    requires u in s.threads && u != t
    ensures PcSafe(s, s', s.threads[u])
  {
    if Holds(s.threads[u]).Some? && Holds(s.threads[u]).value != o {
      EndRegistered(s.core, o, s'.core, Holds(s.threads[u]).value);
    }
  }

  lemma EndRest(s: State, t: Tid, o: Oid, a: Aid, failed: bool, f: FinFor, s': State)
    requires Inv(s) && EndStep(s, t, o, a, failed, f, s')
    ensures AttemptsOk(s')
  {
    assert PcOk(s, s.threads[t]) && Holds(s.threads[t]) == Some(o);
    forall b | 0 <= b < |s'.guard.atts| ensures AttemptOk(s', b) {
      EndAttempt(s, t, o, a, failed, f, s', b);
    }
    forall p | 0 <= p < |s'.core.objs| ensures CurrentOk(s', p) {
      assert CurrentOk(s, p);
      if p != o {
        EndRegistered(s.core, o, s'.core, p);
      }
    }
  }

  lemma EndAttempt(s: State, t: Tid, o: Oid, a: Aid, failed: bool, f: FinFor, s': State, b: Aid)
    requires RegOk(s.core) && AttemptsOk(s) && EndStep(s, t, o, a, failed, f, s') && b < |s.guard.atts|
    requires o in s.guard.lock && s.guard.lock[o] == t && s.core.objs[o].removal == Some(a)
    ensures AttemptOk(s', b)
  {
    assert AttemptOk(s, b);
    if s.guard.atts[b].o != o {
      EndRegistered(s.core, o, s'.core, s.guard.atts[b].o);
    }
  }

  lemma EndShelf(s: State, t: Tid, o: Oid, a: Aid, failed: bool, f: FinFor, s': State)
    requires Inv(s) && EndStep(s, t, o, a, failed, f, s')
    ensures ShelfOk(s')
  {
    assert PcOk(s, s.threads[t]);
    EndRecords(s, o, s');
    EndGone(s, t, o, s');
  }

  lemma EndRecords(s: State, o: Oid, s': State)
    requires RegOk(s.core) && ShelfOk(s) && Ended(s.core, o, s'.core) && s'.shelf == s.shelf
    requires if Registered(s'.core, o) then RecordStays(s.core.objs[o], s'.core.objs[o])
             else s.core.objs[o].job.id !in s.shelf.disk
    ensures forall id | id in s'.shelf.disk :: RecordOk(s', id)
    ensures forall id | id in s'.shelf.leftover :: id in s'.shelf.disk && id !in s'.core.reg
  {
    forall id | id in s'.shelf.disk ensures RecordOk(s', id) {
      assert RecordOk(s, id);
    }
  }

  lemma EndGone(s: State, t: Tid, o: Oid, s': State)
    requires RegOk(s.core) && ShelfOk(s) && Ended(s.core, o, s'.core)
    requires s'.shelf == s.shelf && s'.guard.fin == s.guard.fin - {o}
    requires t in s.threads && Removal(s.threads[t]) == Some(o) && (Registered(s'.core, o) ==> o !in s.shelf.gone)
    requires forall u | u in s.threads && u != t :: u in s'.threads && s'.threads[u] == s.threads[u]
    ensures forall p | p in s'.shelf.gone :: GoneOk(s', p)
  {
    forall p | p in s'.shelf.gone ensures GoneOk(s', p) {
      assert GoneOk(s, p);
      if p != o {
        EndRegistered(s.core, o, s'.core, p);
      }
    }
  }

  lemma EndKeeps(s: State, t: Tid, rm: RemoveStep, s': State)
    requires Inv(s) && RemoveNext(s, t, rm, s') && (rm.TakeOut? || rm.GiveBack?)
    ensures Inv(s')
  {
    var pc := s.threads[t];
    EndFacts(s, t, rm, s');
    EndOwnership(s, t, pc.o, pc.r.a, rm.GiveBack?, pc.f, s');
    EndPcs(s, t, pc.o, pc.r.a, rm.GiveBack?, pc.f, s');
    EndRest(s, t, pc.o, pc.r.a, rm.GiveBack?, pc.f, s');
    EndShelf(s, t, pc.o, pc.r.a, rm.GiveBack?, pc.f, s');
  }

  // ---- closing the attempt ----

  lemma CloserAlone(s: State, t: Tid, u: Tid)
    requires LocksOk(s.threads, s.guard.lock) && PcsOk(s) && t in s.threads && u in s.threads && t != u
    requires s.threads[t].Closer?
    ensures Holds(s.threads[u]) != Some(s.threads[t].o)
    ensures s.threads[u].Closer? ==> s.threads[u].a != s.threads[t].a
  {
    assert PcOk(s, s.threads[t]) && PcOk(s, s.threads[u]);
  }

  lemma CloseAfter(s: State, t: Tid, s': State)
    requires Inv(s) && RemoveNext(s, t, CloseDone, s') && s.threads[t].Closer?
    ensures s.threads[t].a < |s.guard.atts| && !s.guard.atts[s.threads[t].a].done
    ensures t in s'.threads && PcOk(s', s'.threads[t]) && Grows(s, s') && OthersStay(s.threads, t, s'.threads)
    ensures !s'.guard.crashed
  {
    assert PcOk(s, s.threads[t]);
  }

  lemma CloseSafe(s: State, t: Tid, s': State, u: Tid)
    requires LocksOk(s.threads, s.guard.lock) && PcsOk(s) && RemoveNext(s, t, CloseDone, s')
    requires u in s.threads && u != t
    ensures PcSafe(s, s', s.threads[u])
  {
    CloserAlone(s, t, u);
  }

  lemma ClosePcs(s: State, t: Tid, s': State)
    requires Inv(s) && RemoveNext(s, t, CloseDone, s')
    ensures PcsOk(s') && !s'.guard.crashed
  {
    CloseAfter(s, t, s');
    forall u | u in s.threads && u != t ensures PcSafe(s, s', s.threads[u]) {
      CloseSafe(s, t, s', u);
    }
    PcsFrame(s, s', t);
  }

  lemma CloseLocks(s: State, t: Tid, s': State)
    requires Inv(s) && RemoveNext(s, t, CloseDone, s')
    ensures OwnershipOk(s') && LocksOk(s'.threads, s'.guard.lock)
  {
    assert RoleOk(t, s.threads[t]);
    OwnershipMove(s, s', t);
    LockReleased(s.threads, s.guard.lock, t, s'.threads, s.threads[t].o);
  }

  lemma CloseAttempts(s: State, t: Tid, s': State)
    requires LocksOk(s.threads, s.guard.lock) && PcsOk(s) && AttemptsOk(s) && RemoveNext(s, t, CloseDone, s')
    ensures AttemptsOk(s')
  {
    assert PcOk(s, s.threads[t]);
    forall b | 0 <= b < |s'.guard.atts| ensures AttemptOk(s', b) {
      assert AttemptOk(s, b);
    }
    forall p | 0 <= p < |s'.core.objs| ensures CurrentOk(s', p) {
      assert CurrentOk(s, p);
    }
  }

  lemma CloseKeeps(s: State, t: Tid, s': State)
    requires Inv(s) && RemoveNext(s, t, CloseDone, s')
    ensures Inv(s')
  {
    CloseLocks(s, t, s');
    ClosePcs(s, t, s');
    CloseAttempts(s, t, s');
    ShelfMove(s, s', t);
  }

  lemma RemoveKeeps(s: State, t: Tid, rm: RemoveStep, s': State)
    requires Inv(s) && RemoveNext(s, t, rm, s')
    ensures Inv(s')
  {
    match rm
    case Announce => AnnounceKeeps(s, t, s');
    case Check => CheckKeeps(s, t, s');
    case RemoveOk => AnswerKeeps(s, t, rm, s');
    case RemoveFailed(_) => AnswerKeeps(s, t, rm, s');
    case TakeOut => EndKeeps(s, t, rm, s');
    case GiveBack(_) => EndKeeps(s, t, rm, s');
    case CloseDone => CloseKeeps(s, t, s');
  }
}
