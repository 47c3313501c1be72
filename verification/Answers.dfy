/**
  What callers are answered, and what the workers pick: exact conditions on the state before the
  call, in terms of the cards that are shown.
 */
module Answers {
  import opened Model
  import opened JobCore
  import opened JobMachine
  import opened Ownership
  import opened Invariant
  import opened RegistrySteps
  import opened Queue
  import opened Runs
  import opened Cards

  // ---- the card of a video ----

  /** The video has a card, and nobody is deleting it. */
  predicate HasCard(c: Core, id: Id) {
    id in c.reg && c.reg[id] < |c.objs| && !c.objs[c.reg[id]].deleting
  }

  predicate IsLeaving(c: Core, id: Id) {
    id in c.reg && c.reg[id] < |c.objs| && c.objs[c.reg[id]].deleting
  }

  predicate HasFailedCard(c: Core, id: Id) {
    HasCard(c, id) && c.objs[c.reg[id]].job.status.Failed?
  }

  predicate Room(c: Core) {
    |Counted(c)| < 16
  }

  /** Nothing but thread t's own place changed. */
  predicate OnlyMoved(s: State, t: Tid, pc: Pc, s': State) {
    s' == s.(threads := s.threads[t := pc])
  }

  // ---- putting a card back into the queue ----

  /** Card o has joined the queue: at the back, with a live context, a save started, workers awake. */
  predicate Requeued(s: State, t: Tid, o: Oid, ch: Tid, s': State) {
    && !InQueue(s.core, o) && InQueue(s'.core, o) && |s'.core.objs| == |s.core.objs|
    && (forall p | 0 <= p < |s.core.objs| && p != o :: s'.core.objs[p] == s.core.objs[p])
    && s'.core.reg == s.core.reg && s'.shelf == s.shelf && s'.guard == s.guard && s'.core.closing == s.core.closing
    && s'.core.objs[o].order == s'.core.lastSeq == s.core.lastSeq + 1 && !CtxDone(s'.core, o)
    && ch !in s.threads && ch in s'.threads && s'.threads[ch] == Storing(o, s'.core.objs[o].ver, Waiting, Detached)
    && (forall w | w in s'.threads && w != t && w != ch :: w in s.threads && s'.threads[w] == Woken(s.threads[w]))
  }

  lemma RequeueIs(s: State, t: Tid, o: Oid, reply: Reply, ch: Tid, s': State)
    requires RegOk(s.core) && CanWait(s.core, o) && t in s.threads
    requires RequeueStep(s, t, Requeue(s.core, o), o, reply, ch, s')
    ensures Requeued(s, t, o, ch, s') && t in s'.threads && s'.threads[t] == Returned(reply)
    ensures Counted(s'.core) == Counted(s.core) + {s.core.objs[o].job.id}
  {
    CountedRequeue(s.core, o);
  }

  lemma CountedRequeue(c: Core, o: Oid)
    requires RegOk(c) && CanWait(c, o)
    ensures Counted(Requeue(c, o)) == Counted(c) + {c.objs[o].job.id}
  {
    forall id ensures id in Counted(Requeue(c, o)) <==> id in Counted(c) + {c.objs[o].job.id} {
    }
  }

  // ---- Submit ----

  /** Which case of Submit applies to the video; `ok` is what Save would answer. */
  datatype Case = WhenClosed | WhenLeaving | WhenKnown | WhenFailed | WhenFull | WhenUnsaved | WhenNew

  function SubmitCase(c: Core, id: Id, ok: bool): Case {
    if c.closing then WhenClosed
    else if IsLeaving(c, id) then WhenLeaving
    else if HasCard(c, id) && !c.objs[c.reg[id]].job.status.Failed? then WhenKnown
    else if !Room(c) then WhenFull
    else if HasCard(c, id) then WhenFailed
    else if !ok then WhenUnsaved
    else WhenNew
  }

  predicate IsSubmit(s: State, t: Tid, ca: CallerStep, s': State) {
    CallerNext(s, t, ca, s') && ca.SubmitOnce? && s.threads[t].q.Submitting?
  }

  lemma SubmitIsCase(s: State, t: Tid, ca: CallerStep, s': State)
    requires IsSubmit(s, t, ca, s')
    ensures var c, id, out := s.core, s.threads[t].q.id, Submit(s.core, s.threads[t].q.id, ca.now, ca.ok).1;
      match SubmitCase(c, id, ca.ok)
      case WhenClosed => out == SubmitClosed
      case WhenLeaving => id in c.reg && c.reg[id] < |c.objs| && out == SubmitAwait(c.objs[c.reg[id]].removal)
      case WhenKnown => id in c.reg && out == SubmitKnown(c.reg[id])
      case WhenFailed => id in c.reg && CanWait(c, c.reg[id]) && out == SubmitRequeued(c.reg[id])
      case WhenFull => out == SubmitBusy
      case WhenUnsaved => out == SubmitStorage
      case WhenNew => out == SubmitNew(|c.objs|)
  {
    CountedIsUnfinished(s.core);
  }

  /**
    While closing, for a known card, and when the queue is full, nothing changes and the answer
    says so; a Submit of a card that is being deleted waits for that removal.
   */
  lemma SubmitRefused(s: State, t: Tid, ca: CallerStep, s': State)
    requires Inv(s) && IsSubmit(s, t, ca, s')
    ensures var id := s.threads[t].q.id;
      match SubmitCase(s.core, id, ca.ok)
      case WhenClosed => OnlyMoved(s, t, Returned(Submitted(SubmitClosed)), s')
      case WhenKnown => id in s.core.reg && OnlyMoved(s, t, Returned(Submitted(SubmitKnown(s.core.reg[id]))), s')
      case WhenFull => OnlyMoved(s, t, Returned(Submitted(SubmitBusy)), s')
      case WhenLeaving =>
        && id in s.core.reg && s.core.reg[id] < |s.core.objs| && s.core.objs[s.core.reg[id]].removal.Some?
        && OnlyMoved(s, t, Client(SubmitWaiting(id, s.core.objs[s.core.reg[id]].removal.value)), s')
      case _ => true
  {
    SubmitIsCase(s, t, ca, s');
    if SubmitCase(s.core, s.threads[t].q.id, ca.ok).WhenLeaving? {
      JoinsAttempt(s, s.core.reg[s.threads[t].q.id]);
    }
  }

  /** A failed card is put back into the queue, exactly when there is room. */
  lemma SubmitRequeues(s: State, t: Tid, ca: CallerStep, s': State)
    requires Inv(s) && IsSubmit(s, t, ca, s') && SubmitCase(s.core, s.threads[t].q.id, ca.ok).WhenFailed?
    ensures var id := s.threads[t].q.id;
      && id in s.core.reg && Requeued(s, t, s.core.reg[id], ca.ch, s')
      && t in s'.threads && s'.threads[t] == Returned(Submitted(SubmitRequeued(s.core.reg[id])))
      && Counted(s'.core) == Counted(s.core) + {id}
  {
    SubmitIsCase(s, t, ca, s');
    var o := s.core.reg[s.threads[t].q.id];
    assert |UnfinishedIds(s.core)| < MAX_UNFINISHED by {
      CountedIsUnfinished(s.core);
    }
    RequeueIs(s, t, o, Submitted(SubmitRequeued(o)), ca.ch, s');
  }

  /** A new video gets a card and a record, exactly when there is room and the record was saved. */
  predicate Entered(s: State, t: Tid, id: Id, now: Time, s': State) {
    var o := |s.core.objs|;
    && |s'.core.objs| == o + 1 && s'.core.objs[..o] == s.core.objs && NewCard(s'.core, o, id, now)
    && s'.core.reg == s.core.reg[id := o] && s'.core.lastSeq == s.core.lastSeq + 1 && !CtxDone(s'.core, o)
    && s'.guard == s.guard && s'.shelf.gone == s.shelf.gone && s'.shelf.leftover == s.shelf.leftover - {id}
    && s'.shelf.disk == s.shelf.disk[id := Stored(o, 0, Job(id, "", 0.0, Queued, 0, now, ""))]
    && t in s'.threads && s'.threads[t] == Returned(Submitted(SubmitNew(o)))
    && (forall w | w in s'.threads && w != t :: w in s.threads && s'.threads[w] == Woken(s.threads[w]))
  }

  lemma SubmitEnters(s: State, t: Tid, ca: CallerStep, s': State)
    requires Inv(s) && IsSubmit(s, t, ca, s') && SubmitCase(s.core, s.threads[t].q.id, ca.ok).WhenNew?
    ensures Entered(s, t, s.threads[t].q.id, ca.now, s')
    ensures Counted(s'.core) == Counted(s.core) + {s.threads[t].q.id}
  {
    SubmitIsCase(s, t, ca, s');
    CountedEnters(s.core, s.threads[t].q.id, ca.now);
  }

  lemma CountedEnters(c: Core, id: Id, now: Time)
    requires RegOk(c) && id !in c.reg
    ensures Counted(Register(c, id, now)) == Counted(c) + {id}
  {
    forall i ensures i in Counted(Register(c, id, now)) <==> i in Counted(c) + {id} {
    }
  }

  /** When the record could not be saved there is no card; whether a record is left, `wrote` says. */
  lemma SubmitUnsaved(s: State, t: Tid, ca: CallerStep, s': State)
    requires Inv(s) && IsSubmit(s, t, ca, s') && SubmitCase(s.core, s.threads[t].q.id, ca.ok).WhenUnsaved?
    ensures s'.core.objs == s.core.objs && s'.core.reg == s.core.reg && s'.core.closing == s.core.closing
    ensures s'.threads == s.threads[t := Returned(Submitted(SubmitStorage))] && s'.guard == s.guard
    ensures if ca.wrote then s'.shelf.disk.Keys == s.shelf.disk.Keys + {s.threads[t].q.id} else s'.shelf == s.shelf
  {
    SubmitIsCase(s, t, ca, s');
  }

  /** Each answer of Submit is given exactly in its case. */
  lemma SubmitAnswers(s: State, t: Tid, ca: CallerStep, s': State)
    requires Inv(s) && IsSubmit(s, t, ca, s')
    ensures var k := SubmitCase(s.core, s.threads[t].q.id, ca.ok);
      t in s'.threads && match s'.threads[t]
      case Returned(Submitted(SubmitClosed)) => k.WhenClosed?
      case Returned(Submitted(SubmitKnown(_))) => k.WhenKnown?
      case Returned(Submitted(SubmitRequeued(_))) => k.WhenFailed?
      case Returned(Submitted(SubmitBusy)) => k.WhenFull?
      case Returned(Submitted(SubmitStorage)) => k.WhenUnsaved?
      case Returned(Submitted(SubmitNew(_))) => k.WhenNew?
      case Client(SubmitWaiting(_, _)) => k.WhenLeaving?
      case _ => false
  {
    SubmitIsCase(s, t, ca, s');
    match SubmitCase(s.core, s.threads[t].q.id, ca.ok)
    case WhenFailed => SubmitRequeues(s, t, ca, s');
    case WhenNew => SubmitEnters(s, t, ca, s');
    case WhenUnsaved => SubmitUnsaved(s, t, ca, s');
    case _ => SubmitRefused(s, t, ca, s');
  }

  // ---- Retry ----

  predicate IsRetry(s: State, t: Tid, ca: CallerStep, s': State) {
    CallerNext(s, t, ca, s') && ca.RetryOnce? && s.threads[t].q.Retrying?
  }

  /** Retry's answer when it does not requeue. */
  function RetryRefusal(c: Core, id: Id): RetryOut {
    if c.closing then RetryClosed
    else if !HasCard(c, id) then RetryNotFound
    else if !c.objs[c.reg[id]].job.status.Failed? then RetryConflict
    else RetryBusy
  }

  /** Retry puts exactly a failed card back, when there is room; otherwise it changes nothing. */
  lemma RetryAnswers(s: State, t: Tid, ca: CallerStep, s': State)
    requires Inv(s) && IsRetry(s, t, ca, s')
    ensures var c, id := s.core, s.threads[t].q.id;
      if !c.closing && HasFailedCard(c, id) && Room(c)
      then
        && Requeued(s, t, c.reg[id], ca.ch, s') && Counted(s'.core) == Counted(c) + {id}
        && t in s'.threads && s'.threads[t] == Returned(Retried(RetryDone(c.reg[id])))
      else OnlyMoved(s, t, Returned(Retried(RetryRefusal(c, id))), s')
  {
    CountedIsUnfinished(s.core);
    RetryIsCase(s, t, ca, s');
    var c, id := s.core, s.threads[t].q.id;
    if !c.closing && HasFailedCard(c, id) && Room(c) {
      RequeueIs(s, t, c.reg[id], Retried(RetryDone(c.reg[id])), ca.ch, s');
    }
  }

  lemma RetryIsCase(s: State, t: Tid, ca: CallerStep, s': State)
    requires IsRetry(s, t, ca, s')
    ensures var c, id, out := s.core, s.threads[t].q.id, Retry(s.core, s.threads[t].q.id).1;
      if !c.closing && HasFailedCard(c, id) && Room(c) then CanWait(c, c.reg[id]) && out == RetryDone(c.reg[id])
      else out == RetryRefusal(c, id)
  {
    CountedIsUnfinished(s.core);
  }

  // ---- Delete ----

  predicate IsDelete(s: State, t: Tid, ca: CallerStep, s': State) {
    CallerNext(s, t, ca, s') && ca.DeleteOnce? && s.threads[t].q.Deleting?
  }

  /** Card o is marked for deletion with a fresh attempt, and nothing else changed. */
  predicate MarkedDeleting(s: State, o: Oid, s': State) {
    && o < |s.core.objs| && !s.core.objs[o].deleting && s'.shelf == s.shelf && s'.core.reg == s.core.reg
    && s'.guard.atts == s.guard.atts + [Attempt(o, false, false)] && s'.guard.lock == s.guard.lock
    && s'.core.objs ==
         s.core.objs[o := s.core.objs[o].(deleting := true, cancelled := true, removal := Some(|s.guard.atts|))]
    && s'.core.lastSeq == s.core.lastSeq && s'.core.closing == s.core.closing
  }

  /**
    Delete: no card, nothing to do; a removal under way, joined; otherwise the card is marked and
    the removal is this caller's exactly if no worker has the job.
   */
  lemma DeleteAnswers(s: State, t: Tid, ca: CallerStep, s': State)
    requires Inv(s) && IsDelete(s, t, ca, s')
    ensures var c, id := s.core, s.threads[t].q.id;
      if id !in c.reg then OnlyMoved(s, t, Returned(DeleteMissing), s')
      else
        var o := c.reg[id];
        && o < |c.objs|
        && if c.objs[o].deleting
           then c.objs[o].removal.Some? && OnlyMoved(s, t, Client(DeleteWaiting(c.objs[o].removal.value)), s')
           else
             && MarkedDeleting(s, o, s')
             && if c.objs[o].active || c.objs[o].fetching
                then s'.threads == s.threads[t := Client(DeleteWaiting(|s.guard.atts|))] && s'.guard.fin == s.guard.fin
                else
                  && s'.threads == s.threads[t := Remover(o, RemoveAt.Checking, ForCaller)]
                  && s'.guard.fin == s.guard.fin[o := t]
  {
    RegistryOk(s);
    var id := s.threads[t].q.id;
    if IsLeaving(s.core, id) {
      JoinsAttempt(s, s.core.reg[id]);
    }
  }

  // ---- List ----

  /** List looks at exactly the cards that are ready. */
  lemma ListsReady(s: State, t: Tid, todo: seq<Oid>, s': State, o: Oid)
    requires Inv(s) && CallerNext(s, t, ListReady(todo), s')
    ensures OnlyMoved(s, t, Client(Request.Checking(todo)), s')
    ensures o in todo <==> Registered(s.core, o) && s.core.objs[o].job.status.Ready?
  {
    var looked := set o | o in todo;
    assert looked == ReadyJobs(s.core);
    assert o in todo <==> o in looked;
  }

  // ---- what the workers pick ----

  /** The first in the queue: no card that waits was queued before it. */
  ghost predicate FirstInQueue(c: Core, o: Oid) {
    InQueue(c, o) && forall p | 0 <= p < |c.objs| && InQueue(c, p) :: c.objs[o].order <= c.objs[p].order
  }

  ghost predicate QueueEmpty(c: Core) {
    forall o | 0 <= o < |c.objs| :: !InQueue(c, o)
  }

  /** Between jobs the download worker has no job, so every waiting card can be picked. */
  lemma WaitingIsPickable(s: State, o: Oid)
    requires OwnershipOk(s) && Own(s.threads[0]).None?
    ensures InQueue(s.core, o) <==> Pickable(s.core, o)
  {
  }

  /** The download worker takes the first waiting card, and sleeps exactly if no card waits. */
  lemma PicksFirst(s: State, choice: Option<Oid>, s': State)
    requires Inv(s) && WorkNext(s, 0, Pick(choice), s') && s.threads[0].Loop? && !s.core.closing
    ensures match choice
            case Some(o) => FirstInQueue(s.core, o) && 0 in s'.threads && s'.threads[0] == Owns(Down, o, Picked)
            case None => QueueEmpty(s.core) && 0 in s'.threads && s'.threads[0] == Loop(Down, Parked)
  {
    assert RoleOk(0, s.threads[0]);
    forall o ensures InQueue(s.core, o) <==> Pickable(s.core, o) {
      WaitingIsPickable(s, o);
    }
  }

  /** Whenever the download worker sleeps, no card waits at all. */
  lemma SleepsOnEmptyQueue(ss: seq<State>, acts: seq<Action>, i: nat)
    requires Run(ss, acts) && i < |ss| && IsParked(ss[i].threads)
    ensures QueueEmpty(ss[i].core)
  {
    RunInv(ss, acts, i);
    forall o | 0 <= o < |ss[i].core.objs| ensures !InQueue(ss[i].core, o) {
      WaitingIsPickable(ss[i], o);
    }
  }

  /** A shown card that is neither ready nor failed, has no title, and is not tried or given up. */
  predicate WantsTitle(c: Core, o: Oid) {
    Shown(c, o) && var r := c.objs[o];
    !r.job.status.Ready? && !r.job.status.Failed? && r.job.title == "" && !r.fetching && r.titleTries < 3
  }

  ghost predicate FirstWithoutTitle(c: Core, o: Oid) {
    WantsTitle(c, o) && forall p | 0 <= p < |c.objs| && WantsTitle(c, p) :: c.objs[o].order <= c.objs[p].order
  }

  ghost predicate NoTitleWanted(c: Core) {
    forall o | 0 <= o < |c.objs| :: !WantsTitle(c, o)
  }

  /** A title worker takes the first such card, and sleeps exactly if there is none. */
  lemma PicksTitle(s: State, t: Tid, choice: Option<Oid>, s': State)
    requires Inv(s) && WorkNext(s, t, Pick(choice), s') && s.threads[t].Loop? && t != 0 && !s.core.closing
    ensures match choice
            case Some(o) =>
              FirstWithoutTitle(s.core, o) && t in s'.threads && s'.threads[t] == Owns(Title, o, Fetching(1))
            case None => NoTitleWanted(s.core) && t in s'.threads && s'.threads[t] == Loop(Title, Parked)
  {
    assert RoleOk(t, s.threads[t]);
    TitleChoice(s, t, choice, s');
    WantedIsPickable(s.core, choice);
  }

  lemma TitleChoice(s: State, t: Tid, choice: Option<Oid>, s': State)
    requires WorkNext(s, t, Pick(choice), s') && s.threads[t].Loop? && s.threads[t].kind.Title? && !s.core.closing
    ensures PickTitle(s.core, choice) && t in s'.threads
    ensures s'.threads[t] == if choice.Some? then Owns(Title, choice.value, Fetching(1)) else Loop(Title, Parked)
  {
  }

  lemma WantedIsPickable(c: Core, choice: Option<Oid>)
    requires PickTitle(c, choice)
    ensures if choice.Some? then FirstWithoutTitle(c, choice.value) else NoTitleWanted(c)
  {
    assert forall o :: WantsTitle(c, o) <==> TitlePickable(c, o);
  }
}
