/** The steps that give a job an owner, a pending removal or a registry entry keep the invariant. */
module RegistrySteps {
  import opened Model
  import opened JobCore
  import opened JobMachine
  import opened Ownership
  import opened QuietSteps
  import opened Invariant
  import opened LockSteps
  import opened RemovalSteps

  // ---- steps that only change owner flags ----

  predicate SameRecord(r: JobRec, r': JobRec) {
    r'.job == r.job && r'.ver == r.ver && r'.removal == r.removal && r'.deleting == r.deleting
  }

  /** Same registry, jobs, versions and removals. */
  ghost predicate SameRecords(c: Core, c': Core) {
    && c'.reg == c.reg && |c'.objs| == |c.objs|
    && (forall o | 0 <= o < |c.objs| :: SameRecord(c.objs[o], c'.objs[o]))
  }

  lemma SameRecordsPc(s: State, s': State, pc: Pc)
    requires PcOk(s, pc) && SameRecords(s.core, s'.core) && s'.shelf == s.shelf && s'.guard.atts == s.guard.atts
    ensures PcOk(s', pc)
  {
    assert forall o | 0 <= o < |s.core.objs| :: Registered(s'.core, o) == Registered(s.core, o);
    match pc
    case Storing(o, base, at, k) =>
    case Remover(o, r, _) =>
    case Closer(o, a, failed, _) =>
    case _ =>
  }

  lemma SameRecordsKeep(s: State, t: Tid, s': State)
    requires PcsOk(s) && AttemptsOk(s) && ShelfOk(s)
    requires SameRecords(s.core, s'.core) && s'.shelf == s.shelf && s'.guard.atts == s.guard.atts &&
      s'.guard.lock == s.guard.lock
    requires t in s.threads && t in s'.threads && OthersStay(s.threads, t, s'.threads) && PcOk(s', s'.threads[t])
    requires !Busy(s.threads[t])
    requires forall o | o in s.guard.fin :: o in s'.guard.fin && s'.guard.fin[o] == s.guard.fin[o]
    ensures PcsOk(s') && AttemptsOk(s') && ShelfOk(s')
  {
    assert forall o | 0 <= o < |s.core.objs| :: Registered(s'.core, o) == Registered(s.core, o);
    forall u | u in s'.threads && u != t ensures PcOk(s', s'.threads[u]) {
      SameRecordsPc(s, s', s.threads[u]);
    }
    forall a | 0 <= a < |s'.guard.atts| ensures AttemptOk(s', a) {
      assert AttemptOk(s, a);
    }
    forall o | 0 <= o < |s'.core.objs| ensures CurrentOk(s', o) {
      assert CurrentOk(s, o);
    }
    forall id | id in s'.shelf.disk ensures RecordOk(s', id) {
      assert RecordOk(s, id);
    }
    forall o | o in s'.shelf.gone ensures GoneOk(s', o) {
      assert GoneOk(s, o);
    }
  }

  // ---- gaining and losing a job ----

  /** Only t's owner flag of o differs. */
  ghost predicate FlagSet(c: Core, t: Tid, o: Oid, on: bool, c': Core) {
    && SameRecords(c, c') && c'.closing == c.closing && o < |c.objs|
    && OwnedBy(c', t, o) == on && OwnedBy(c', if t == 0 then 1 else 0, o) == OwnedBy(c, if t == 0 then 1 else 0, o)
    && (forall p | 0 <= p < |c.objs| && p != o :: c'.objs[p] == c.objs[p])
  }

  lemma FlagRegistered(c: Core, t: Tid, o: Oid, on: bool, c': Core, p: Oid)
    requires FlagSet(c, t, o, on, c')
    ensures Registered(c', p) == Registered(c, p)
  {
  }

  lemma GainOwners(c: Core, th: map<Tid, Pc>, t: Tid, o: Oid, c': Core, pc: Pc)
    requires RolesOk(th) && OwnersOk(c, th) && FlagsOk(c, th) && FlagSet(c, t, o, true, c')
    requires t in th && t <= 2 && Own(th[t]).None? && Own(pc) == Some(o) && Registered(c, o) && !OwnedBy(c, t, o)
    ensures OwnersOk(c', th[t := pc]) && FlagsOk(c', th[t := pc])
  {
    forall u | u in th && u != t && Own(th[u]).Some?
      ensures Registered(c', Own(th[u]).value) && OwnedBy(c', u, Own(th[u]).value)
    {
      FlagRegistered(c, t, o, true, c', Own(th[u]).value);
    }
    FlagRegistered(c, t, o, true, c', o);
  }

  lemma LoseOwners(c: Core, th: map<Tid, Pc>, t: Tid, o: Oid, c': Core, pc: Pc)
    requires RolesOk(th) && OwnersOk(c, th) && FlagsOk(c, th) && FlagSet(c, t, o, false, c')
    requires t in th && t <= 2 && Own(th[t]) == Some(o) && Own(pc).None?
    requires forall u | u in th && 2 < u :: Own(th[u]).None?
    ensures OwnersOk(c', th[t := pc]) && FlagsOk(c', th[t := pc])
  {
    forall u | u in th && u != t && Own(th[u]).Some?
      ensures Registered(c', Own(th[u]).value) && OwnedBy(c', u, Own(th[u]).value)
    {
      FlagRegistered(c, t, o, false, c', Own(th[u]).value);
    }
  }

  lemma CallersOwnNothing(th: map<Tid, Pc>)
    requires RolesOk(th)
    ensures forall u | u in th && 2 < u :: Own(th[u]).None?
  {
    forall u | u in th && 2 < u ensures Own(th[u]).None? {
      assert RoleOk(u, th[u]);
    }
  }

  // ---- picking ----

  lemma PickFacts(c: Core, t: Tid, kind: Kind, o: Oid)
    requires t <= 2 && kind == KindOf(t) && Chosen(c, kind, Some(o))
    ensures Registered(c, o) && !c.objs[o].deleting && !OwnedBy(c, t, o)
    ensures FlagSet(c, t, o, true, Activate(c, kind, o))
  {
  }

  lemma PickOwnership(s: State, t: Tid, kind: Kind, o: Oid, s': State)
    requires OwnershipOk(s) && t in s.threads && s.threads[t] == Loop(kind, Top) && !s.core.closing
    requires PickStep(s, t, kind, Some(o), s')
    ensures OwnershipOk(s')
  {
    assert RoleOk(t, s.threads[t]);
    PickFacts(s.core, t, kind, o);
    GainOwners(s.core, s.threads, t, o, s'.core, s'.threads[t]);
    PickRemovals(s.core, t, o, s'.core, s.guard.fin);
    PickPlaces(s, t, kind, o, s');
  }

  lemma PickPlaces(s: State, t: Tid, kind: Kind, o: Oid, s': State)
    requires RolesOk(s.threads) && FinOk(s.threads, s.guard.fin) && t in s.threads && s.threads[t] == Loop(kind, Top)
    requires !s.core.closing && PickStep(s, t, kind, Some(o), s')
    ensures RolesOk(s'.threads) && FinOk(s'.threads, s'.guard.fin)
  {
    assert RoleOk(t, s.threads[t]);
  }

  lemma PickRemovals(c: Core, t: Tid, o: Oid, c': Core, fin: map<Oid, Tid>)
    requires FlagSet(c, t, o, true, c') && RemovalsOk(c, fin) && Registered(c, o) && !c.objs[o].deleting
    ensures RemovalsOk(c', fin)
  {
    forall p | 0 <= p < |c'.objs| ensures RemovalOk(c', fin, p) {
      assert RemovalOk(c, fin, p);
      FlagRegistered(c, t, o, true, c', p);
    }
  }

  lemma PickKeeps(s: State, t: Tid, choice: Option<Oid>, s': State)
    requires Inv(s) && WorkNext(s, t, Pick(choice), s') && s.threads[t].Loop? && !s.core.closing && choice.Some?
    ensures Inv(s')
  {
    assert RoleOk(t, s.threads[t]);
    PickFacts(s.core, t, s.threads[t].kind, choice.value);
    PickOwnership(s, t, s.threads[t].kind, choice.value, s');
    LockKept(s.threads, s.guard.lock, t, s'.threads);
    SameRecordsKeep(s, t, s');
  }

  // ---- releasing ----

  lemma ReleaseFacts(c: Core, t: Tid, kind: Kind, o: Oid)
    requires t <= 2 && kind == KindOf(t) && o < |c.objs|
    ensures FlagSet(c, t, o, false, ReleaseJob(c, kind, o).0)
    ensures ReleaseJob(c, kind, o).1 <==> c.objs[o].deleting && !Owned(ReleaseJob(c, kind, o).0, o)
  {
  }

  lemma ReleaseFin(th: map<Tid, Pc>, fin: map<Oid, Tid>, t: Tid, o: Oid, pc: Pc)
    requires FinOk(th, fin) && t in th && Removal(th[t]).None? && o !in fin
    requires Removal(pc).Some? ==> Removal(pc).value == o
    ensures FinOk(th[t := pc], if Removal(pc).Some? then fin[o := t] else fin)
  {
  }

  lemma ReleaseKnown(s: State, t: Tid, kind: Kind, o: Oid)
    requires OwnershipOk(s) && t in s.threads && s.threads[t] == Owns(kind, o, Leaving)
    ensures t <= 2 && kind == KindOf(t) && Registered(s.core, o) && OwnedBy(s.core, t, o) && o !in s.guard.fin
    ensures Own(s.threads[t]) == Some(o) && Removal(s.threads[t]).None?
  {
    assert RoleOk(t, s.threads[t]);
    assert Own(s.threads[t]) == Some(o);
    assert RemovalOk(s.core, s.guard.fin, o);
  }

  lemma ReleaseOwnership(s: State, t: Tid, kind: Kind, o: Oid, s': State)
    requires OwnershipOk(s) && t in s.threads && s.threads[t] == Owns(kind, o, Leaving)
    requires o < |s.core.objs| && ReleaseStep(s, t, kind, o, s')
    ensures OwnershipOk(s')
  {
    ReleaseKnown(s, t, kind, o);
    ReleaseFacts(s.core, t, kind, o);
    CallersOwnNothing(s.threads);
    LoseOwners(s.core, s.threads, t, o, s'.core, s'.threads[t]);
    ReleaseFin(s.threads, s.guard.fin, t, o, s'.threads[t]);
    ReleaseRemovals(s.core, s.guard.fin, t, o, s'.core, s'.guard.fin);
  }

  lemma ReleaseRemovals(c: Core, fin: map<Oid, Tid>, t: Tid, o: Oid, c': Core, fin': map<Oid, Tid>)
    requires RemovalsOk(c, fin) && FlagSet(c, t, o, false, c') && Registered(c, o) && OwnedBy(c, t, o)
    requires fin' == if c.objs[o].deleting && !Owned(c', o) then fin[o := t] else fin
    ensures RemovalsOk(c', fin')
  {
    forall p | 0 <= p < |c'.objs| ensures RemovalOk(c', fin', p) {
      assert RemovalOk(c, fin, p) && RemovalOk(c, fin, o);
      FlagRegistered(c, t, o, false, c', p);
    }
  }

  lemma ReleasePc(s: State, t: Tid, s': State)
    requires Inv(s) && WorkNext(s, t, Release, s')
    ensures t in s'.threads && PcOk(s', s'.threads[t]) && OthersStay(s.threads, t, s'.threads)
    ensures !Busy(s.threads[t]) && Holds(s'.threads[t]).None?
  {
    var o := s.threads[t].o;
    assert Own(s.threads[t]) == Some(o);
    assert Registered(s.core, o) && RemovalOk(s.core, s.guard.fin, o);
    NotGone(s, o);
  }

  lemma ReleaseKeeps(s: State, t: Tid, s': State)
    requires Inv(s) && WorkNext(s, t, Release, s')
    ensures Inv(s')
  {
    var pc := s.threads[t];
    assert RoleOk(t, pc) && Own(pc) == Some(pc.o);
    ReleaseOwnership(s, t, pc.kind, pc.o, s');
    ReleasePc(s, t, s');
    LockKept(s.threads, s.guard.lock, t, s'.threads);
    ReleaseFacts(s.core, t, pc.kind, pc.o);
    assert RemovalOk(s.core, s.guard.fin, pc.o);
    SameRecordsKeep(s, t, s');
  }

  // ---- submitting ----

  lemma NewRegistered(c: Core, id: Id, now: Time, o: Oid)
    requires RegOk(c) && id !in c.reg
    ensures RegOk(Register(c, id, now))
    ensures o < |c.objs| ==> Registered(Register(c, id, now), o) == Registered(c, o)
    ensures Registered(Register(c, id, now), |c.objs|)
  {
  }

  /** A new job is registered; t is done. */
  ghost predicate NewStep(s: State, t: Tid, id: Id, now: Time, s': State) {
    && RegOk(s.core) && id !in s.core.reg && t in s.threads && s.threads[t].Client? && 2 < t
    && s'.core == Register(s.core, id, now) && s'.guard == s.guard
    && t in s'.threads && s'.threads[t].Returned? && s'.threads[t].reply.Submitted?
    && OthersStay(s.threads, t, s'.threads)
    && s'.shelf == Shelf(s.shelf.disk[id := Stored(|s.core.objs|, 0, NewRec(id, now, s.core.lastSeq + 1).job)],
                         s.shelf.gone, s.shelf.leftover - {id})
  }

  lemma NewOwnership(s: State, t: Tid, id: Id, now: Time, s': State)
    requires OwnershipOk(s) && NewStep(s, t, id, now, s')
    ensures OwnershipOk(s')
  {
    NewRegistered(s.core, id, now, |s.core.objs|);
    assert RoleOk(t, s.threads[t]);
    MoveRoles(s, s', t);
    NewOwners(s, t, id, now, s');
    NewFlags(s, t, id, now, s');
    NewRemovals(s.core, id, now, s.guard.fin);
  }

  lemma NewOwners(s: State, t: Tid, id: Id, now: Time, s': State)
    requires RegOk(s.core) && OwnersOk(s.core, s.threads) && NewStep(s, t, id, now, s')
    ensures OwnersOk(s'.core, s'.threads)
  {
    forall u | u in s'.threads && Own(s'.threads[u]).Some?
      ensures Registered(s'.core, Own(s'.threads[u]).value) && OwnedBy(s'.core, u, Own(s'.threads[u]).value)
    {
      assert Own(s'.threads[u]) == Own(s.threads[u]);
      NewRegistered(s.core, id, now, Own(s.threads[u]).value);
    }
  }

  lemma NewFlags(s: State, t: Tid, id: Id, now: Time, s': State)
    requires 0 in s.threads && 1 in s.threads && 2 in s.threads && FlagsOk(s.core, s.threads)
    requires NewStep(s, t, id, now, s')
    ensures 0 in s'.threads && 1 in s'.threads && 2 in s'.threads && FlagsOk(s'.core, s'.threads)
  {
    assert forall u | 0 <= u <= 2 :: Own(s'.threads[u]) == Own(s.threads[u]);
  }

  lemma NewRemovals(c: Core, id: Id, now: Time, fin: map<Oid, Tid>)
    requires RegOk(c) && id !in c.reg && RemovalsOk(c, fin)
    ensures RemovalsOk(Register(c, id, now), fin)
  {
    var c' := Register(c, id, now);
    forall o | 0 <= o < |c'.objs| ensures RemovalOk(c', fin, o) {
      NewRegistered(c, id, now, o);
      assert o < |c.objs| ==> RemovalOk(c, fin, o);
    }
  }

  lemma NewPcs(s: State, t: Tid, id: Id, now: Time, s': State)
    requires OwnershipOk(s) && PcsOk(s) && NewStep(s, t, id, now, s')
    ensures PcsOk(s')
  {
    forall u | u in s.threads && u != t ensures PcSafe(s, s', s.threads[u]) {
      HolderRegistered(s, u);
      if Holds(s.threads[u]).Some? {
        NewRegistered(s.core, id, now, Holds(s.threads[u]).value);
      }
    }
    PcsFrame(s, s', t);
  }

  lemma NewAttempts(s: State, t: Tid, id: Id, now: Time, s': State)
    requires RegOk(s.core) && AttemptsOk(s) && NewStep(s, t, id, now, s')
    ensures AttemptsOk(s')
  {
    forall a | 0 <= a < |s'.guard.atts| ensures AttemptOk(s', a) {
      assert AttemptOk(s, a);
      NewRegistered(s.core, id, now, s.guard.atts[a].o);
    }
    forall o | 0 <= o < |s'.core.objs| ensures CurrentOk(s', o) {
      NewRegistered(s.core, id, now, o);
      assert o < |s.core.objs| ==> CurrentOk(s, o);
    }
  }

  lemma NewShelf(s: State, t: Tid, id: Id, now: Time, s': State)
    requires RegOk(s.core) && ShelfOk(s) && NewStep(s, t, id, now, s')
    ensures ShelfOk(s')
  {
    forall i | i in s'.shelf.disk ensures RecordOk(s', i) {
      assert i in s.shelf.disk ==> RecordOk(s, i);
    }
    forall o | o in s'.shelf.gone ensures GoneOk(s', o) {
      assert GoneOk(s, o);
      NewRegistered(s.core, id, now, o);
    }
  }

  lemma NewKeeps(s: State, t: Tid, id: Id, now: Time, s': State)
    requires Inv(s) && NewStep(s, t, id, now, s')
    ensures Inv(s')
  {
    NewOwnership(s, t, id, now, s');
    LockKept(s.threads, s.guard.lock, t, s'.threads);
    NewPcs(s, t, id, now, s');
    NewAttempts(s, t, id, now, s');
    NewShelf(s, t, id, now, s');
  }

  /** A Submit whose Save failed, possibly after the record was in place. */
  ghost predicate OrphanStep(s: State, t: Tid, id: Id, rec: Stored, s': State) {
    && id !in s.core.reg && t in s.threads && s.threads[t].Client? && 2 < t
    && s'.core == s.core.(lastSeq := s.core.lastSeq + 1) && s'.guard == s.guard
    && t in s'.threads && s'.threads[t].Returned? && s'.threads[t].reply.Submitted?
    && OthersStay(s.threads, t, s'.threads) && s'.shelf.gone == s.shelf.gone
    && (|| s'.shelf == s.shelf
        || (s'.shelf.disk == s.shelf.disk[id := rec] && s'.shelf.leftover == s.shelf.leftover + {id}))
  }

  lemma OrphanOwnership(s: State, t: Tid, id: Id, rec: Stored, s': State)
    requires OwnershipOk(s) && OrphanStep(s, t, id, rec, s')
    ensures OwnershipOk(s')
  {
    assert RoleOk(t, s.threads[t]);
    MoveRoles(s, s', t);
    assert forall u | u in s'.threads :: Own(s'.threads[u]) == Own(s.threads[u]);
    assert forall o | 0 <= o < |s.core.objs| :: RemovalOk(s'.core, s.guard.fin, o) == RemovalOk(s.core, s.guard.fin, o);
  }

  lemma OrphanPcs(s: State, t: Tid, id: Id, rec: Stored, s': State)
    requires OwnershipOk(s) && PcsOk(s) && OrphanStep(s, t, id, rec, s')
    ensures PcsOk(s')
  {
    forall u | u in s.threads && u != t ensures PcSafe(s, s', s.threads[u]) {
      HolderRegistered(s, u);
      OrphanSafe(s, t, id, rec, s', s.threads[u]);
    }
    PcsFrame(s, s', t);
  }

  lemma OrphanSafe(s: State, t: Tid, id: Id, rec: Stored, s': State, pc: Pc)
    requires OrphanStep(s, t, id, rec, s')
    requires (pc.Remover? || (pc.Storing? && pc.at.Writing?)) ==> Registered(s.core, pc.o)
    ensures PcSafe(s, s', pc)
  {
  }

  lemma OrphanRest(s: State, t: Tid, id: Id, rec: Stored, s': State)
    requires AttemptsOk(s) && ShelfOk(s) && OrphanStep(s, t, id, rec, s')
    ensures AttemptsOk(s') && ShelfOk(s')
  {
    forall a | 0 <= a < |s'.guard.atts| ensures AttemptOk(s', a) { assert AttemptOk(s, a); }
    forall o | 0 <= o < |s'.core.objs| ensures CurrentOk(s', o) { assert CurrentOk(s, o); }
    forall i | i in s'.shelf.disk ensures RecordOk(s', i) {
      assert i in s.shelf.disk ==> RecordOk(s, i);
    }
    forall o | o in s'.shelf.gone ensures GoneOk(s', o) { assert GoneOk(s, o); }
  }

  lemma OrphanKeeps(s: State, t: Tid, id: Id, rec: Stored, s': State)
    requires Inv(s) && OrphanStep(s, t, id, rec, s')
    ensures Inv(s')
  {
    OrphanOwnership(s, t, id, rec, s');
    LockKept(s.threads, s.guard.lock, t, s'.threads);
    OrphanPcs(s, t, id, rec, s');
    OrphanRest(s, t, id, rec, s');
  }

  /** The attempt a caller joins exists. */
  lemma JoinsAttempt(s: State, o: Oid)
    requires OwnershipOk(s) && AttemptsOk(s) && Registered(s.core, o) && s.core.objs[o].deleting
    ensures s.core.objs[o].removal.Some? && s.core.objs[o].removal.value < |s.guard.atts|
  {
    assert RemovalOk(s.core, s.guard.fin, o) && CurrentOk(s, o);
  }

  lemma AwaitKeeps(s: State, t: Tid, ca: CallerStep, s': State, att: Option<Aid>)
    requires Inv(s) && CallerNext(s, t, ca, s') && ca.SubmitOnce? && 2 < t
    requires Submit(s.core, s.threads[t].q.id, ca.now, ca.ok).1 == SubmitAwait(att)
    ensures Inv(s')
  {
    JoinsAttempt(s, s.core.reg[s.threads[t].q.id]);
    OnlyCallerQuiet(s, t, Client(SubmitWaiting(s.threads[t].q.id, att.value)), s');
    QuietKeeps(s, s');
  }

  lemma SubmitKeeps(s: State, t: Tid, ca: CallerStep, s': State)
    requires Inv(s) && CallerNext(s, t, ca, s') && ca.SubmitOnce?
    ensures Inv(s')
  {
    var id := s.threads[t].q.id;
    var out := Submit(s.core, id, ca.now, ca.ok).1;
    assert RoleOk(t, s.threads[t]);
    if out.SubmitAwait? {
      AwaitKeeps(s, t, ca, s', out.att);
    } else if out.SubmitNew? {
      SubmitNews(s, t, ca, s');
      NewKeeps(s, t, id, ca.now, s');
    } else if out.SubmitStorage? {
      SubmitOrphans(s, t, ca, s');
      OrphanKeeps(s, t, id, FreshRecord(s, id, ca.now), s');
    } else {
      SubmitQuiet(s, t, ca, s');
      QuietKeeps(s, s');
    }
  }

  /** The record a Submit writes for a new job. */
  function FreshRecord(s: State, id: Id, now: Time): Stored {
    Stored(|s.core.objs|, 0, NewRec(id, now, s.core.lastSeq + 1).job)
  }

  lemma SubmitNews(s: State, t: Tid, ca: CallerStep, s': State)
    requires CallerNext(s, t, ca, s') && ca.SubmitOnce? && 2 < t
    requires Submit(s.core, s.threads[t].q.id, ca.now, ca.ok).1.SubmitNew?
    ensures NewStep(s, t, s.threads[t].q.id, ca.now, s')
  {
  }

  lemma SubmitOrphans(s: State, t: Tid, ca: CallerStep, s': State)
    requires CallerNext(s, t, ca, s') && ca.SubmitOnce? && 2 < t
    requires Submit(s.core, s.threads[t].q.id, ca.now, ca.ok).1.SubmitStorage?
    ensures OrphanStep(s, t, s.threads[t].q.id, FreshRecord(s, s.threads[t].q.id, ca.now), s')
  {
  }

  // ---- deleting ----

  /** The core after o was marked for deletion with the fresh attempt a. */
  ghost predicate Marked(c: Core, o: Oid, a: Aid, c': Core) {
    && Registered(c, o) && !c.objs[o].deleting
    && c'.reg == c.reg && |c'.objs| == |c.objs|
    && c'.objs == c.objs[o := c.objs[o].(removal := Some(a), deleting := true, cancelled := true)]
  }

  ghost predicate MarkStep(s: State, t: Tid, o: Oid, s': State) {
    && Marked(s.core, o, |s.guard.atts|, s'.core) && s'.shelf == s.shelf
    && t in s.threads && s.threads[t].Client? && 2 < t
    && s'.guard.atts == s.guard.atts + [Attempt(o, false, false)]
    && s'.guard.lock == s.guard.lock && s'.guard.crashed == s.guard.crashed
    && t in s'.threads && s'.threads == s.threads[t := s'.threads[t]]
    && if Owned(s.core, o) then s'.guard.fin == s.guard.fin && s'.threads[t] == Client(DeleteWaiting(|s.guard.atts|))
       else s'.guard.fin == s.guard.fin[o := t] && s'.threads[t] == Remover(o, RemoveAt.Checking, ForCaller)
  }

  lemma MarkRegistered(c: Core, o: Oid, a: Aid, c': Core, p: Oid)
    requires Marked(c, o, a, c')
    ensures Registered(c', p) == Registered(c, p)
  {
  }

  lemma MarkRoles(s: State, t: Tid, o: Oid, s': State)
    requires OwnershipOk(s) && MarkStep(s, t, o, s')
    ensures RolesOk(s'.threads) && FinOk(s'.threads, s'.guard.fin)
    ensures forall u | u in s'.threads :: Own(s'.threads[u]) == Own(s.threads[u])
  {
    assert RoleOk(t, s.threads[t]);
    assert RemovalOk(s.core, s.guard.fin, o);
    MarkPlaces(s, t, o, s');
  }

  lemma MarkPlaces(s: State, t: Tid, o: Oid, s': State)
    requires RolesOk(s.threads) && FinOk(s.threads, s.guard.fin) && MarkStep(s, t, o, s') && o !in s.guard.fin
    ensures RolesOk(s'.threads) && FinOk(s'.threads, s'.guard.fin)
    ensures forall u | u in s'.threads :: Own(s'.threads[u]) == Own(s.threads[u])
  {
  }

  lemma MarkOwnership(s: State, t: Tid, o: Oid, s': State)
    requires OwnershipOk(s) && MarkStep(s, t, o, s')
    ensures OwnershipOk(s')
  {
    MarkRoles(s, t, o, s');
    MarkOwners(s, t, o, s');
    MarkRemovals(s, t, o, s');
  }

  lemma MarkOwners(s: State, t: Tid, o: Oid, s': State)
    requires OwnershipOk(s) && MarkStep(s, t, o, s')
    requires forall u | u in s'.threads :: Own(s'.threads[u]) == Own(s.threads[u])
    ensures OwnersOk(s'.core, s'.threads)
  {
    forall u | u in s'.threads && Own(s'.threads[u]).Some?
      ensures Registered(s'.core, Own(s'.threads[u]).value) && OwnedBy(s'.core, u, Own(s'.threads[u]).value)
    {
      MarkRegistered(s.core, o, |s.guard.atts|, s'.core, Own(s.threads[u]).value);
    }
  }

  lemma MarkRemovals(s: State, t: Tid, o: Oid, s': State)
    requires RemovalsOk(s.core, s.guard.fin) && MarkStep(s, t, o, s')
    ensures RemovalsOk(s'.core, s'.guard.fin)
  {
    forall p | 0 <= p < |s'.core.objs| ensures RemovalOk(s'.core, s'.guard.fin, p) {
      assert RemovalOk(s.core, s.guard.fin, p);
      MarkRegistered(s.core, o, |s.guard.atts|, s'.core, p);
    }
  }

  lemma MarkPcs(s: State, t: Tid, o: Oid, s': State)
    requires OwnershipOk(s) && PcsOk(s) && ShelfOk(s) && MarkStep(s, t, o, s')
    ensures PcsOk(s')
  {
    assert RemovalOk(s.core, s.guard.fin, o);
    NotGone(s, o);
    forall u | u in s.threads && u != t ensures PcSafe(s, s', s.threads[u]) {
      MarkSafe(s, t, o, s', u);
    }
    PcsFrame(s, s', t);
  }

  lemma MarkSafe(s: State, t: Tid, o: Oid, s': State, u: Tid)
    requires PcsOk(s) && MarkStep(s, t, o, s') && u in s.threads && s.core.objs[o].removal.None?
    ensures PcSafe(s, s', s.threads[u])
  {
    assert PcOk(s, s.threads[u]);
    if Holds(s.threads[u]).Some? {
      MarkRegistered(s.core, o, |s.guard.atts|, s'.core, Holds(s.threads[u]).value);
    }
  }

  lemma MarkRest(s: State, t: Tid, o: Oid, s': State)
    requires OwnershipOk(s) && AttemptsOk(s) && ShelfOk(s) && MarkStep(s, t, o, s')
    ensures AttemptsOk(s') && ShelfOk(s')
  {
    assert RemovalOk(s.core, s.guard.fin, o);
    MarkAttempts(s, t, o, s');
    MarkShelf(s, t, o, s');
  }

  lemma MarkAttempts(s: State, t: Tid, o: Oid, s': State)
    requires AttemptsOk(s) && MarkStep(s, t, o, s') && RemovalOk(s.core, s.guard.fin, o)
    ensures AttemptsOk(s')
  {
    var a := |s.guard.atts|;
    forall b | 0 <= b < |s'.guard.atts| ensures AttemptOk(s', b) {
      MarkRegistered(s.core, o, a, s'.core, s'.guard.atts[b].o);
      assert b < a ==> AttemptOk(s, b);
    }
    forall p | 0 <= p < |s'.core.objs| ensures CurrentOk(s', p) {
      assert CurrentOk(s, p);
      MarkRegistered(s.core, o, a, s'.core, p);
    }
  }

  lemma MarkShelf(s: State, t: Tid, o: Oid, s': State)
    requires OwnershipOk(s) && ShelfOk(s) && MarkStep(s, t, o, s')
    ensures ShelfOk(s')
  {
    forall i | i in s'.shelf.disk ensures RecordOk(s', i) { assert RecordOk(s, i); }
    forall p | p in s'.shelf.gone ensures GoneOk(s', p) {
      assert GoneOk(s, p);
      MarkRegistered(s.core, o, |s.guard.atts|, s'.core, p);
      assert RemovalOk(s.core, s.guard.fin, o);
    }
  }

  lemma MarkKeeps(s: State, t: Tid, o: Oid, s': State)
    requires Inv(s) && MarkStep(s, t, o, s')
    ensures Inv(s')
  {
    MarkOwnership(s, t, o, s');
    MarkLocks(s, t, o, s');
    MarkPcs(s, t, o, s');
    MarkRest(s, t, o, s');
  }

  lemma MarkLocks(s: State, t: Tid, o: Oid, s': State)
    requires LocksOk(s.threads, s.guard.lock) && MarkStep(s, t, o, s')
    ensures LocksOk(s'.threads, s'.guard.lock)
  {
    LockKept(s.threads, s.guard.lock, t, s'.threads);
  }

  lemma DeleteKeeps(s: State, t: Tid, ca: CallerStep, s': State)
    requires Inv(s) && CallerNext(s, t, ca, s') && ca.DeleteOnce?
    ensures Inv(s')
  {
    var id := s.threads[t].q.id;
    var out := Delete(s.core, id, |s.guard.atts|).1;
    assert RoleOk(t, s.threads[t]);
    if out.DeleteNotFound? {
      OnlyCallerQuiet(s, t, Returned(DeleteMissing), s');
      QuietKeeps(s, s');
    } else if out.DeleteJoin? {
      JoinsAttempt(s, s.core.reg[id]);
      OnlyCallerQuiet(s, t, Client(DeleteWaiting(out.att.value)), s');
      QuietKeeps(s, s');
    } else {
      MarkKeeps(s, t, s.core.reg[id], s');
    }
  }

  // ---- every step ----

  lemma WorkKeeps(s: State, t: Tid, wk: WorkStep, s': State)
    requires Inv(s) && WorkNext(s, t, wk, s')
    ensures Inv(s')
  {
    if s.threads[t].Loop? && wk.Pick? && !s.core.closing && wk.choice.Some? {
      PickKeeps(s, t, wk.choice, s');
    } else if s.threads[t].Loop? {
      LoopQuiet(s, t, wk, s');
      QuietKeeps(s, s');
    } else if wk.Release? {
      ReleaseKeeps(s, t, s');
    } else {
      OwnStepQuiet(s, t, wk, s');
      QuietKeeps(s, s');
    }
  }

  lemma SaveKeeps(s: State, t: Tid, sv: SaveStep, s': State)
    requires Inv(s) && SaveNext(s, t, sv, s')
    ensures Inv(s')
  {
    if sv.SaveEnd? {
      SaveEndKeeps(s, t, sv, s');
    } else if Snapshot(s.core, s.threads[t].o).Some? {
      SaveTakeKeeps(s, t, s');
    } else {
      SaveSkipQuiet(s, t, s');
      QuietKeeps(s, s');
    }
  }

  lemma CallerQuiet(s: State, t: Tid, ca: CallerStep, s': State)
    requires Inv(s) && CallerNext(s, t, ca, s') && !ca.SubmitOnce? && !ca.DeleteOnce?
    ensures Quiet(s, s')
  {
    match ca
    case SubmitWake(_) => WaitQuiet(s, t, ca, s');
    case DeleteWake(_) => WaitQuiet(s, t, ca, s');
    case RetryOnce(_) => RetryQuiet(s, t, ca, s');
    case ListReady(_) => ListReadyQuiet(s, t, ca, s');
    case ListOne(size, ch) =>
      assert RoleOk(t, s.threads[t]) && PcOk(s, s.threads[t]);
      ListQuiet(s, t, s.threads[t].q.todo, size, ch, s');
    case CloseBegin => CloseQuiet(s, t, ca, s');
    case CloseEnd(_) => CloseQuiet(s, t, ca, s');
  }

  lemma CallerKeeps(s: State, t: Tid, ca: CallerStep, s': State)
    requires Inv(s) && CallerNext(s, t, ca, s')
    ensures Inv(s')
  {
    if ca.SubmitOnce? {
      SubmitKeeps(s, t, ca, s');
    } else if ca.DeleteOnce? {
      DeleteKeeps(s, t, ca, s');
    } else {
      CallerQuiet(s, t, ca, s');
      QuietKeeps(s, s');
    }
  }

  /** The invariant is inductive: every step of every thread keeps it. */
  lemma StepKeeps(s: State, a: Action, s': State)
    requires Inv(s) && Step(s, a, s')
    ensures Inv(s')
  {
    match a
    case WorkAct(t, wk) => WorkKeeps(s, t, wk, s');
    case SaveAct(t, sv) => SaveKeeps(s, t, sv, s');
    case RemoveAct(t, rm) => RemoveKeeps(s, t, rm, s');
    case CallerAct(t, ca) => CallerKeeps(s, t, ca, s');
    case Call(t, q) =>
      CallQuiet(s, t, q, s');
      QuietKeeps(s, s');
  }

  lemma RegistryOk(s: State)
    requires Inv(s)
    ensures RegOk(s.core)
  {
  }
}
