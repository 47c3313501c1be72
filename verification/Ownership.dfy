/**
  Who owns a job and who must complete its removal. The first invariant layer: worker flags
  match the workers' program counters, owned and deleting jobs are registered, and a deleting
  job without owners has exactly one thread that will finalize it.
 */
module Ownership {
  import opened Model
  import opened JobCore
  import opened JobMachine

  function KindOf(t: Tid): Kind {
    if t == 0 then Down else Title
  }

  predicate WorkOf(kind: Kind, w: Work) {
    match w
    case Picked => kind.Down?
    case Piping => kind.Down?
    case Fetching(_) => kind.Title?
    case Delaying(_) => kind.Title?
    case GivingUp => kind.Title?
    case Marking => true
    case Leaving => true
  }

  /** Workers run worker code of their kind; other threads run caller code. */
  predicate RoleOk(t: Tid, pc: Pc) {
    match pc
    case Loop(kind, _) => t <= 2 && kind == KindOf(t)
    case Owns(kind, _, w) => t <= 2 && kind == KindOf(t) && WorkOf(kind, w)
    case Storing(_, _, _, k) =>
      if k.Pipe? then t == 0 else if k.Leave? then t <= 2 && k.kind == KindOf(t) else 2 < t
    case Remover(_, _, f) => if f.ForWorker? then t <= 2 && f.kind == KindOf(t) else 2 < t
    case Closer(_, _, _, f) => if f.ForWorker? then t <= 2 && f.kind == KindOf(t) else 2 < t
    case Client(_) => 2 < t
    case Returned(_) => 2 < t
  }

  /** The job a worker owns at this point of its code. */
  function Own(pc: Pc): Option<Oid> {
    if pc.Owns? || (pc.Storing? && (pc.k.Pipe? || pc.k.Leave?)) then Some(pc.o) else None
  }

  /** The job whose pending removal this thread must complete. */
  function Removal(pc: Pc): Option<Oid> {
    if pc.Remover? then Some(pc.o) else None
  }

  /** Steps an owner still takes until its epilogue, at most. */
  function WorkLeft(pc: Pc): nat {
    match pc
    case Owns(_, _, w) => (match w
                           case Picked => 8
                           case Piping => 5
                           case Fetching(n) => if n < TITLE_ATTEMPTS then 5 + 2 * (TITLE_ATTEMPTS - n) else 5
                           case Delaying(n) => if n < TITLE_ATTEMPTS then 4 + 2 * (TITLE_ATTEMPTS - n) else 6
                           case GivingUp => 2
                           case Marking => 2
                           case Leaving => 1)
    case Storing(_, _, at, k) =>
      if k.Pipe? then (if at.Waiting? then 7 else 6)
      else if k.Leave? then (if at.Waiting? then 4 else 3)
      else 0
    case _ => 0
  }

  predicate Owned(c: Core, o: Oid)
    requires o < |c.objs|
  {
    c.objs[o].active || c.objs[o].fetching
  }

  predicate OwnedBy(c: Core, t: Tid, o: Oid)
    requires o < |c.objs|
  {
    if t == 0 then c.objs[o].active else c.objs[o].fetching
  }

  ghost predicate RolesOk(th: map<Tid, Pc>) {
    && 0 in th && 1 in th && 2 in th
    && (forall t | t in th :: RoleOk(t, th[t]))
  }

  ghost predicate OwnersOk(c: Core, th: map<Tid, Pc>) {
    forall t | t in th && Own(th[t]).Some? ::
      var o := Own(th[t]).value;
      Registered(c, o) && OwnedBy(c, t, o)
  }

  ghost predicate FlagsOk(c: Core, th: map<Tid, Pc>)
    requires 0 in th && 1 in th && 2 in th
  {
    && (forall o | 0 <= o < |c.objs| && c.objs[o].active :: Own(th[0]) == Some(o))
    && (forall o | 0 <= o < |c.objs| && c.objs[o].fetching :: Own(th[1]) == Some(o) || Own(th[2]) == Some(o))
    && (Own(th[1]).Some? ==> Own(th[1]) != Own(th[2]))
  }

  predicate RemovalOk(c: Core, fin: map<Oid, Tid>, o: Oid)
    requires o < |c.objs|
  {
    if !Registered(c, o) then !Owned(c, o) && o !in fin
    else if c.objs[o].deleting then c.objs[o].removal.Some? && (Owned(c, o) <==> o !in fin)
    else c.objs[o].removal.None? && o !in fin
  }

  ghost predicate RemovalsOk(c: Core, fin: map<Oid, Tid>) {
    && (forall o | 0 <= o < |c.objs| :: RemovalOk(c, fin, o))
    && (forall o | o in fin :: o < |c.objs|)
  }

  /** fin names exactly the threads that still have a removal to complete. */
  ghost predicate FinOk(th: map<Tid, Pc>, fin: map<Oid, Tid>) {
    && (forall o | o in fin :: fin[o] in th && Removal(th[fin[o]]) == Some(o))
    && (forall t | t in th && Removal(th[t]).Some? :: Removal(th[t]).value in fin && fin[Removal(th[t]).value] == t)
  }

  ghost predicate OwnershipOk(s: State) {
    && RegOk(s.core)
    && RolesOk(s.threads)
    && OwnersOk(s.core, s.threads)
    && FlagsOk(s.core, s.threads)
    && RemovalsOk(s.core, s.guard.fin)
    && FinOk(s.threads, s.guard.fin)
  }
}
