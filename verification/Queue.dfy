/**
  Statuses and queue order. Seen from the queue, every step is either calm (nothing becomes
  queued, and only the download in flight can become unfinished) or one enqueue. From these two
  kinds of step follow the admission bound, the queue order, the wakeup and the card invariants.
 */
module Queue {
  import opened Model
  import opened JobCore
  import opened JobMachine
  import opened Ownership

  /** The job whose download is in flight: between runDownload's first and last section. */
  function Flight(th: map<Tid, Pc>): Option<Oid> {
    if 0 !in th then None
    else if th[0].Storing? && th[0].k.Pipe? then Some(th[0].o)
    else if th[0].Owns? && th[0].w.Piping? then Some(th[0].o)
    else None
  }

  /** The job the download worker picked and has not started yet. */
  function PickedJob(th: map<Tid, Pc>): Option<Oid> {
    if 0 in th && th[0].Owns? && th[0].w.Picked? then Some(th[0].o) else None
  }

  predicate IsParked(th: map<Tid, Pc>) {
    0 in th && th[0] == Loop(Down, Parked)
  }

  ghost predicate NonePickable(c: Core) {
    forall o | 0 <= o < |c.objs| :: !Pickable(c, o)
  }

  /** A job that is shown and not being deleted. */
  predicate Shown(c: Core, o: Oid) {
    Registered(c, o) && !c.objs[o].deleting
  }

  predicate InQueue(c: Core, o: Oid) {
    Shown(c, o) && c.objs[o].job.status.Queued?
  }

  // ---- calm steps ----

  predicate CalmAt(s: State, s': State, o: Oid) {
    o < |s.core.objs| && o < |s'.core.objs| &&
    var r, r' := s.core.objs[o], s'.core.objs[o];
    && r'.job.id == r.job.id && r'.order == r.order
    && (Registered(s'.core, o) ==> Registered(s.core, o))
    && (InQueue(s'.core, o) ==> InQueue(s.core, o) && r'.cancelled == r.cancelled)
    && (Shown(s'.core, o) && InPipeline(r'.job.status) ==>
          || Flight(s'.threads) == Some(o)
          || (s.core.closing && s'.core.closing && Shown(s.core, o) && Unfinished(r.job))
          || (Shown(s.core, o) && InPipeline(r.job.status) && Flight(s.threads) != Some(o)))
    && (Flight(s.threads) == Some(o) && Flight(s'.threads) != Some(o) ==>
          s'.core.closing || !InQueue(s'.core, o))
    && (PickedJob(s.threads) == Some(o) && PickedJob(s'.threads) != Some(o) ==> !InQueue(s'.core, o))
  }

  ghost predicate Calm(s: State, s': State) {
    && |s'.core.objs| == |s.core.objs| && s.core.lastSeq <= s'.core.lastSeq
    && (s.core.closing ==> s'.core.closing)
    && (forall o | 0 <= o < |s.core.objs| :: CalmAt(s, s', o))
    && (Flight(s'.threads).Some? ==> Flight(s'.threads) == Flight(s.threads) || PickedJob(s.threads).Some?)
    && (PickedJob(s'.threads).Some? ==>
          PickedJob(s'.threads) == PickedJob(s.threads) || (!s.core.closing && Flight(s.threads).None?))
    && (IsParked(s'.threads) ==> IsParked(s.threads) || NonePickable(s'.core))
  }

  // ---- enqueuing steps ----

  /** Job o joins the back of the queue; the parked worker is woken. */
  ghost predicate Enqueue(s: State, o: Oid, s': State) {
    && !s.core.closing && !s'.core.closing
    && |UnfinishedIds(s.core)| < MAX_UNFINISHED
    && o < |s'.core.objs| && |s.core.objs| <= |s'.core.objs| <= |s.core.objs| + 1
    && (|s'.core.objs| > |s.core.objs| ==> o == |s.core.objs|)
    && s'.core.lastSeq == s.core.lastSeq + 1 && s'.core.objs[o].order == s'.core.lastSeq
    && InQueue(s'.core, o) && !s'.core.objs[o].cancelled
    && (o < |s.core.objs| ==> Shown(s.core, o) && s.core.objs[o].job.status.Failed?
                              && s'.core.objs[o].job.id == s.core.objs[o].job.id)
    && (forall p | 0 <= p < |s.core.objs| && p != o ::
          s'.core.objs[p] == s.core.objs[p] && Registered(s'.core, p) == Registered(s.core, p))
    && Flight(s'.threads) == Flight(s.threads) && PickedJob(s'.threads) == PickedJob(s.threads)
    && !IsParked(s'.threads)
  }

  // ---- the invariants ----

  /** Sequence numbers are distinct and were handed out by nextSeqLocked. */
  ghost predicate OrdersOk(c: Core) {
    && (forall o | 0 <= o < |c.objs| :: c.objs[o].order <= c.lastSeq)
    && (forall o, p | 0 <= o < p < |c.objs| :: c.objs[o].order != c.objs[p].order)
  }

  /** While not closing, a queued card can still start and a running card is being run. */
  ghost predicate CardsOk(s: State) {
    !s.core.closing ==>
      && (forall o | 0 <= o < |s.core.objs| && InQueue(s.core, o) :: !s.core.objs[o].cancelled)
      && (forall o | 0 <= o < |s.core.objs| && Shown(s.core, o) && InPipeline(s.core.objs[o].job.status) ::
            Flight(s.threads) == Some(o))
  }

  ghost predicate NoLostWakeup(s: State) {
    IsParked(s.threads) ==> NonePickable(s.core)
  }

  /** The video of the download in flight. */
  function Slot(s: State): set<Id> {
    var f := Flight(s.threads);
    if f.Some? && f.value < |s.core.objs| then {s.core.objs[f.value].job.id} else {}
  }

  ghost predicate AdmissionOk(s: State) {
    if Flight(s.threads).Some? || PickedJob(s.threads).Some? || !s.core.closing
    then |UnfinishedIds(s.core) - Slot(s)| <= MAX_UNFINISHED
    else |UnfinishedIds(s.core)| <= MAX_UNFINISHED + 1
  }

  ghost predicate QueueInv(s: State) {
    OrdersOk(s.core) && CardsOk(s) && NoLostWakeup(s)
  }

  // ---- calm steps keep them ----

  lemma CalmOrders(s: State, s': State)
    requires Calm(s, s') && OrdersOk(s.core)
    ensures OrdersOk(s'.core)
  {
    forall o | 0 <= o < |s.core.objs| ensures s'.core.objs[o].order == s.core.objs[o].order {
      assert CalmAt(s, s', o);
    }
  }

  lemma CalmCards(s: State, s': State)
    requires Calm(s, s') && CardsOk(s)
    ensures CardsOk(s')
  {
    if !s'.core.closing {
      forall o | 0 <= o < |s'.core.objs|
        ensures InQueue(s'.core, o) ==> !s'.core.objs[o].cancelled
        ensures Shown(s'.core, o) && InPipeline(s'.core.objs[o].job.status) ==> Flight(s'.threads) == Some(o)
      {
        assert CalmAt(s, s', o);
      }
    }
  }

  lemma CalmWakeup(s: State, s': State)
    requires Calm(s, s') && NoLostWakeup(s) && OwnershipOk(s)
    ensures NoLostWakeup(s')
  {
    if IsParked(s.threads) {
      forall o | 0 <= o < |s'.core.objs| ensures IsParked(s'.threads) ==> !Pickable(s'.core, o) {
        assert CalmAt(s, s', o);
        assert !Pickable(s.core, o);
        assert Own(s.threads[0]).None?;
      }
    }
  }

  ghost predicate FlightRegistered(s: State) {
    Flight(s.threads).Some? ==> Registered(s.core, Flight(s.threads).value)
  }

  /** Under a calm step only the job in flight can become counted. */
  lemma CalmCounts(s: State, s': State, id: Id)
    requires Calm(s, s') && FlightRegistered(s) && RegOk(s'.core) && id in UnfinishedIds(s'.core)
    ensures id in UnfinishedIds(s.core) || id in Slot(s')
    ensures id in Slot(s) && id !in Slot(s') ==> s'.core.closing
  {
    var o := s'.core.reg[id];
    assert CalmAt(s, s', o);
    assert Shown(s'.core, o);
  }

  lemma CalmSlot(s: State, s': State)
    requires Calm(s, s')
    ensures Flight(s'.threads) == Flight(s.threads) ==> Slot(s') == Slot(s)
    ensures |Slot(s)| <= 1 && (Flight(s.threads).None? ==> Slot(s) == {})
  {
    var f := Flight(s.threads);
    assert f.Some? && f.value < |s.core.objs| ==> CalmAt(s, s', f.value);
  }

  lemma CalmAdmission(s: State, s': State)
    requires Calm(s, s') && FlightRegistered(s) && RegOk(s'.core) && AdmissionOk(s)
    ensures AdmissionOk(s')
  {
    var u, u' := UnfinishedIds(s.core), UnfinishedIds(s'.core);
    CalmSlot(s, s');
    forall id | id in u' ensures (id in u || id in Slot(s')) && (id in Slot(s) && id !in Slot(s') ==> s'.core.closing) {
      CalmCounts(s, s', id);
    }
    if !s'.core.closing || (Flight(s'.threads).Some? && Flight(s'.threads) == Flight(s.threads)) {
      SubsetSize(u' - Slot(s'), u - Slot(s));
    } else if Flight(s'.threads).Some? || PickedJob(s'.threads).Some? {
      assert u == u - Slot(s);
      SubsetSize(u' - Slot(s'), u);
    } else {
      SubsetSize(u', u);
      SubsetSize(u, (u - Slot(s)) + Slot(s));
    }
  }

  // ---- enqueues keep them ----

  lemma EnqueueOrders(s: State, o: Oid, s': State)
    requires Enqueue(s, o, s') && OrdersOk(s.core)
    ensures OrdersOk(s'.core)
  {
  }

  lemma EnqueueCards(s: State, o: Oid, s': State)
    requires Enqueue(s, o, s') && CardsOk(s)
    ensures CardsOk(s') && NoLostWakeup(s')
  {
  }

  lemma EnqueueAdmission(s: State, o: Oid, s': State)
    requires Enqueue(s, o, s') && RegOk(s'.core) && FlightRegistered(s)
    ensures AdmissionOk(s')
  {
    var u, u' := UnfinishedIds(s.core), UnfinishedIds(s'.core);
    var id := s'.core.objs[o].job.id;
    forall i | i in u' ensures i in u || i == id {
      var p := s'.core.reg[i];
      assert Registered(s'.core, p);
    }
    SubsetSize(u' - Slot(s'), u + {id});
  }

  // ---- reading the invariants ----

  /** At most 16 jobs count outside the download in flight, so at most 17 count at all. */
  lemma AdmissionBound(s: State)
    requires AdmissionOk(s)
    ensures |UnfinishedIds(s.core)| <= MAX_UNFINISHED + 1
    ensures !s.core.closing ==> |UnfinishedIds(s.core) - Slot(s)| <= MAX_UNFINISHED
    ensures !s.core.closing && Flight(s.threads).None? ==> |UnfinishedIds(s.core)| <= MAX_UNFINISHED
  {
    var u := UnfinishedIds(s.core);
    assert |Slot(s)| <= 1;
    SubsetSize(u, (u - Slot(s)) + Slot(s));
    if Flight(s.threads).None? {
      assert u - Slot(s) == u;
    }
  }
}
