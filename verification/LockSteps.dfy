/** The steps that take, use and release a job's saveMu keep the invariant. */
module LockSteps {
  import opened Model
  import opened JobCore
  import opened JobMachine
  import opened Ownership
  import opened QuietSteps
  import opened Invariant

  // ---- one thread moves ----

  /** Same core, same duties: ownership is not affected by thread t's move. */
  lemma OwnershipMove(s: State, s': State, t: Tid)
    requires OwnershipOk(s) && s'.core == s.core && s'.guard.fin == s.guard.fin && t in s.threads && t in s'.threads
    requires OthersStay(s.threads, t, s'.threads) && RoleOk(t, s'.threads[t])
    requires Own(s'.threads[t]) == Own(s.threads[t]) && Removal(s'.threads[t]) == Removal(s.threads[t])
    ensures OwnershipOk(s')
  {
    MoveRoles(s, s', t);
    assert forall u | u in s.threads :: Own(s'.threads[u]) == Own(s.threads[u]);
  }

  lemma MoveRoles(s: State, s': State, t: Tid)
    requires RolesOk(s.threads) && FinOk(s.threads, s.guard.fin)
    requires s'.guard.fin == s.guard.fin && t in s.threads && t in s'.threads
    requires OthersStay(s.threads, t, s'.threads) && RoleOk(t, s'.threads[t])
    requires Removal(s'.threads[t]) == Removal(s.threads[t])
    ensures RolesOk(s'.threads) && FinOk(s'.threads, s'.guard.fin)
  {
    forall u | u in s'.threads ensures RoleOk(u, s'.threads[u]) && Removal(s'.threads[u]) == Removal(s.threads[u]) {
      assert RoleOk(u, s.threads[u]);
    }
  }

  lemma LockTaken(th: map<Tid, Pc>, lock: map<Oid, Tid>, t: Tid, th': map<Tid, Pc>, o: Oid)
    requires LocksOk(th, lock) && t in th && t in th' && OthersStay(th, t, th')
    requires Holds(th[t]).None? && Holds(th'[t]) == Some(o) && o !in lock
    ensures LocksOk(th', lock[o := t])
  {
  }

  lemma LockKept(th: map<Tid, Pc>, lock: map<Oid, Tid>, t: Tid, th': map<Tid, Pc>)
    requires LocksOk(th, lock) && t in th' && OthersStay(th, t, th')
    requires Holds(th'[t]) == if t in th then Holds(th[t]) else None
    ensures LocksOk(th', lock)
  {
  }

  lemma LockReleased(th: map<Tid, Pc>, lock: map<Oid, Tid>, t: Tid, th': map<Tid, Pc>, o: Oid)
    requires LocksOk(th, lock) && t in th && t in th' && OthersStay(th, t, th')
    requires Holds(th[t]) == Some(o) && Holds(th'[t]).None?
    ensures LocksOk(th', lock - {o})
  {
  }

  /** Attempts stay as they are while a thread other than a closer moves. */
  lemma AttemptsMove(s: State, s': State, t: Tid)
    requires AttemptsOk(s) && s'.core == s.core && s'.guard.atts == s.guard.atts && s.shelf.gone <= s'.shelf.gone
    requires t in s.threads && !s.threads[t].Closer? && OthersStay(s.threads, t, s'.threads)
    requires forall o | o in s.guard.lock && s.guard.lock[o] != t ::
               o in s'.guard.lock && s'.guard.lock[o] == s.guard.lock[o]
    ensures AttemptsOk(s')
  {
    forall a | 0 <= a < |s'.guard.atts| ensures AttemptOk(s', a) {
      assert AttemptOk(s, a);
    }
    forall o | 0 <= o < |s'.core.objs| ensures CurrentOk(s', o) {
      assert CurrentOk(s, o);
    }
  }

  lemma ShelfMove(s: State, s': State, t: Tid)
    requires ShelfOk(s) && s'.core == s.core && s'.shelf == s.shelf && s'.guard.fin == s.guard.fin
    requires t in s.threads && OthersStay(s.threads, t, s'.threads)
    requires !(s.threads[t].Remover? && s.threads[t].r.Removed?)
    ensures ShelfOk(s')
  {
    forall id | id in s'.shelf.disk ensures RecordOk(s', id) {
      assert RecordOk(s, id);
    }
    forall o | o in s'.shelf.gone ensures GoneOk(s', o) {
      assert GoneOk(s, o);
    }
  }

  /** A registered job that is not about to leave the registry still has its files. */
  lemma NotGone(s: State, o: Oid)
    requires ShelfOk(s) && Registered(s.core, o) && o !in s.guard.fin
    ensures o !in s.shelf.gone
  {
    assert o in s.shelf.gone ==> GoneOk(s, o);
  }

  // ---- saveCurrent ----

  lemma SaveSkipQuiet(s: State, t: Tid, s': State)
    requires RolesOk(s.threads) && PcsOk(s)
    requires SaveNext(s, t, SaveBegin, s') && Snapshot(s.core, s.threads[t].o).None?
    ensures Quiet(s, s')
  {
    assert RoleOk(t, s.threads[t]) && PcOk(s, s.threads[t]);
    GotoQuiet(s.threads, s'.core, s.guard.atts, t, s'.threads[t]);
  }

  lemma SaveTakePc(s: State, t: Tid, s': State)
    requires Inv(s) && SaveNext(s, t, SaveBegin, s') && Snapshot(s.core, s.threads[t].o).Some?
    ensures PcOk(s', s'.threads[t])
  {
    var o := s.threads[t].o;
    var id := s.core.objs[o].job.id;
    assert PcOk(s, s.threads[t]) && RemovalOk(s.core, s.guard.fin, o);
    NotGone(s, o);
    assert id in s.shelf.disk ==> RecordOk(s, id);
  }

  /** Thread t takes o's saveMu and goes on; nothing else happens. */
  lemma TakeKeeps(s: State, s': State, t: Tid, o: Oid)
    requires Inv(s) && s'.core == s.core && s'.shelf == s.shelf
    requires s'.guard == s.guard.(lock := s.guard.lock[o := t]) && o !in s.guard.lock
    requires t in s.threads && t in s'.threads && OthersStay(s.threads, t, s'.threads)
    requires RoleOk(t, s'.threads[t]) && PcOk(s', s'.threads[t])
    requires Own(s'.threads[t]) == Own(s.threads[t]) && Removal(s'.threads[t]) == Removal(s.threads[t])
    requires Holds(s.threads[t]).None? && Holds(s'.threads[t]) == Some(o)
    ensures Inv(s')
  {
    OwnershipMove(s, s', t);
    LockTaken(s.threads, s.guard.lock, t, s'.threads, o);
    PcsSame(s, s', t);
    AttemptsMove(s, s', t);
    ShelfMove(s, s', t);
  }

  lemma SaveTakeKeeps(s: State, t: Tid, s': State)
    requires Inv(s) && SaveNext(s, t, SaveBegin, s') && Snapshot(s.core, s.threads[t].o).Some?
    ensures Inv(s')
  {
    SaveTakePc(s, t, s');
    assert RoleOk(t, s.threads[t]);
    TakeKeeps(s, s', t, s.threads[t].o);
  }

  lemma SaveEndLocks(s: State, t: Tid, sv: SaveStep, s': State)
    requires LocksOk(s.threads, s.guard.lock) && SaveNext(s, t, sv, s') && sv.SaveEnd?
    ensures LocksOk(s'.threads, s'.guard.lock)
  {
    LockReleased(s.threads, s.guard.lock, t, s'.threads, s.threads[t].o);
  }

  lemma SaveEndSafe(s: State, t: Tid, sv: SaveStep, s': State, u: Tid)
    requires OwnershipOk(s) && LocksOk(s.threads, s.guard.lock) && PcsOk(s) && SaveNext(s, t, sv, s') && sv.SaveEnd?
    requires u in s.threads && u != t
    ensures PcSafe(s, s', s.threads[u])
  {
    var o := s.threads[t].o;
    assert PcOk(s, s.threads[t]) && Holds(s.threads[t]) == Some(o);
    assert s'.shelf.disk - {s.core.objs[o].job.id} == s.shelf.disk - {s.core.objs[o].job.id};
    HolderRegistered(s, u);
    StoreSafe(s, s', o, s.threads[u]);
  }

  lemma SaveEndPc(s: State, t: Tid, sv: SaveStep, s': State)
    requires SaveNext(s, t, sv, s') && sv.SaveEnd? && PcOk(s, s.threads[t])
    ensures PcOk(s', s'.threads[t]) && Grows(s, s')
  {
  }

  lemma SaveEndPcs(s: State, t: Tid, sv: SaveStep, s': State)
    requires OwnershipOk(s) && LocksOk(s.threads, s.guard.lock) && PcsOk(s) && SaveNext(s, t, sv, s') && sv.SaveEnd?
    ensures PcsOk(s')
  {
    SaveEndPc(s, t, sv, s');
    forall u | u in s.threads && u != t ensures PcSafe(s, s', s.threads[u]) {
      SaveEndSafe(s, t, sv, s', u);
    }
    PcsFrame(s, s', t);
  }

  /** The store changed at o's record only: threads that do not hold o's lock are safe. */
  lemma StoreSafe(s: State, s': State, o: Oid, pc: Pc)
    requires Registered(s.core, o) && s'.core == s.core && s'.guard.atts == s.guard.atts
    requires s'.shelf.gone == s.shelf.gone || s'.shelf.gone == s.shelf.gone + {o}
    requires s'.shelf.disk - {s.core.objs[o].job.id} == s.shelf.disk - {s.core.objs[o].job.id}
    requires Holds(pc) != Some(o)
    requires pc.Remover? ==> pc.o != o || s'.shelf.gone == s.shelf.gone
    requires (pc.Remover? || (pc.Storing? && pc.at.Writing?)) ==> Registered(s.core, pc.o)
    ensures PcSafe(s, s', pc)
  {
    var id := s.core.objs[o].job.id;
    assert forall i | i != id :: i in s'.shelf.disk <==> i in s'.shelf.disk - {id};
    assert forall i | i != id :: i in s.shelf.disk <==> i in s.shelf.disk - {id};
    assert forall i | i in s'.shelf.disk - {id} :: s'.shelf.disk[i] == (s'.shelf.disk - {id})[i];
    assert forall i | i in s.shelf.disk - {id} :: s.shelf.disk[i] == (s.shelf.disk - {id})[i];
  }

  /** A writing or removing thread works on a registered job. */
  lemma HolderRegistered(s: State, u: Tid)
    requires OwnershipOk(s) && PcsOk(s) && u in s.threads
    ensures (s.threads[u].Remover? || (s.threads[u].Storing? && s.threads[u].at.Writing?)) ==>
      Registered(s.core, s.threads[u].o)
    ensures s.threads[u].Remover? ==>
      s.core.objs[s.threads[u].o].deleting && s.threads[u].o in s.guard.fin && s.guard.fin[s.threads[u].o] == u
  {
    var pc := s.threads[u];
    assert PcOk(s, pc);
    if pc.Remover? {
      assert Removal(pc) == Some(pc.o);
      assert RemovalOk(s.core, s.guard.fin, pc.o);
    }
  }

  lemma SaveEndShelf(s: State, t: Tid, sv: SaveStep, s': State)
    requires Inv(s) && SaveNext(s, t, sv, s') && sv.SaveEnd?
    ensures ShelfOk(s')
  {
    var pc := s.threads[t];
    assert PcOk(s, pc);
    forall id | id in s'.shelf.disk ensures RecordOk(s', id) {
      assert id in s.shelf.disk ==> RecordOk(s, id);
    }
    forall o | o in s'.shelf.gone ensures GoneOk(s', o) {
      assert GoneOk(s, o);
    }
  }

  lemma SaveEndOwnership(s: State, t: Tid, sv: SaveStep, s': State)
    requires Inv(s) && SaveNext(s, t, sv, s') && sv.SaveEnd?
    ensures OwnershipOk(s') && AttemptsOk(s')
  {
    assert RoleOk(t, s.threads[t]);
    SaveEndMove(s, t, sv, s');
    OwnershipMove(s, s', t);
    SaveEndAttempts(s, t, sv, s');
  }

  lemma SaveEndMove(s: State, t: Tid, sv: SaveStep, s': State)
    requires SaveNext(s, t, sv, s') && sv.SaveEnd? && RoleOk(t, s.threads[t])
    ensures t in s'.threads && OthersStay(s.threads, t, s'.threads) && RoleOk(t, s'.threads[t])
    ensures Own(s'.threads[t]) == Own(s.threads[t]) && Removal(s'.threads[t]) == Removal(s.threads[t])
  {
  }

  lemma SaveEndAttempts(s: State, t: Tid, sv: SaveStep, s': State)
    requires LocksOk(s.threads, s.guard.lock) && AttemptsOk(s) && SaveNext(s, t, sv, s') && sv.SaveEnd?
    ensures AttemptsOk(s')
  {
    AttemptsMove(s, s', t);
  }

  lemma SaveEndKeeps(s: State, t: Tid, sv: SaveStep, s': State)
    requires Inv(s) && SaveNext(s, t, sv, s') && sv.SaveEnd?
    ensures Inv(s')
  {
    SaveEndOwnership(s, t, sv, s');
    SaveEndLocks(s, t, sv, s');
    SaveEndPcs(s, t, sv, s');
    SaveEndShelf(s, t, sv, s');
  }
}
