/** Whole histories of the session store: caps, evictions, restarts. */
module SessionRuns {
  import opened Model
  import opened TokenMap
  import opened SessionStore

  /** One call, with everything that was drawn, chosen or answered; a restart loads the file. */
  datatype Op =
    | Login(now: Time, hash: Hash, csrf: Csrf, victim: Option<Hash>, w1: bool, w2: bool)
    | Ask(now: Time, hash: Hash, w: bool)
    | Logout(hash: Hash, w: bool)
    | LogoutAll(w: bool)
    | Sweep(now: Time, w: bool)
    | Restart(fp: string, from: Time, to: Time, reloaded: Sessions)

  /** The file's sessions as far as the fingerprint admits them. */
  ghost function Admitted(st: St, fp: string): Sessions {
    if st.file.Some? && st.file.value.fp == fp then st.file.value.sessions else map[]
  }

  ghost predicate Possible(st: St, op: Op) {
    match op
    case Login(now, hash, csrf, victim, _, _) => hash != "" && csrf != "" && CreateVictim(st, now, victim)
    case Restart(fp, from, to, reloaded) => Reloads(Admitted(st, fp), from, to, reloaded)
    case _ => true
  }

  ghost function Apply(st: St, op: Op): St {
    match op
    case Login(now, hash, csrf, victim, w1, w2) => Created(st, now, hash, csrf, victim, w1, w2)
    case Ask(now, hash, w) => LookedUp(st, now, hash, w)
    case Logout(hash, w) => Dropped(st, hash, w)
    case LogoutAll(w) => Cleared(st, w)
    case Sweep(now, w) => Pruned(st, now, w)
    case Restart(fp, _, _, reloaded) => St(fp, reloaded, st.file)
  }

  /** The clock readings of the call lie in the interval. */
  predicate During(op: Op, t: Time, t': Time) {
    && t <= t'
    && match op
       case Login(now, _, _, _, _, _) => t <= now <= t'
       case Ask(now, _, _) => t <= now <= t'
       case Sweep(now, _) => t <= now <= t'
       case Restart(_, from, to, _) => t <= from <= to <= t'
       case _ => true
  }

  /** Every write the call makes succeeds. */
  predicate Clean(op: Op) {
    match op
    case Login(_, _, _, _, w1, w2) => w1 && w2
    case Ask(_, _, w) => w
    case Logout(_, w) => w
    case LogoutAll(w) => w
    case Sweep(_, w) => w
    case Restart(_, _, _, _) => true
  }

  ghost predicate History(sts: seq<St>, ops: seq<Op>, ts: seq<Time>) {
    && |sts| == |ts| == |ops| + 1 && sts[0].sessions == map[] && sts[0].file == None
    && (forall i | 0 <= i < |ops| ::
          Possible(sts[i], ops[i]) && sts[i + 1] == Apply(sts[i], ops[i]) && During(ops[i], ts[i], ts[i + 1]))
  }

  // ---- caps ----

  ghost predicate Fits(m: Sessions) {
    Keyed(m) && |m| <= 20 && forall h | h in m :: HasCsrf(m[h])
  }

  ghost predicate Tame(st: St) {
    Fits(st.sessions) && (st.file.Some? ==> Fits(st.file.value.sessions))
  }

  lemma PartFits(m: Sessions, m': Sessions)
    requires Fits(m) && m'.Keys <= m.Keys && forall h | h in m' :: m'[h] == m[h]
    ensures Fits(m')
  {
    SubsetSize(m'.Keys, m.Keys);
  }

  lemma EvictFits(m: Sessions, victim: Option<Hash>)
    requires Fits(m) && Victim(m, m.Keys, MAX_SESSIONS, victim)
    ensures Fits(Evict(m, victim)) && |Evict(m, victim)| < MAX_SESSIONS
  {
    PartFits(m, Evict(m, victim));
    assert victim.Some? ==> Evict(m, victim).Keys == m.Keys - {victim.value};
  }

  lemma InsertFits(m: Sessions, sess: Session)
    requires Fits(m) && |m| < MAX_SESSIONS && sess.hash != "" && HasCsrf(sess)
    ensures Fits(m[sess.hash := sess])
  {
    var m' := m[sess.hash := sess];
    assert m'.Keys == m.Keys + {sess.hash};
    assert |m'| <= |m| + 1;
  }

  /** The sessions after a login, whatever file writes do. */
  lemma CreatedSessions(st: St, now: Time, hash: Hash, csrf: Csrf, victim: Option<Hash>, w1: bool, w2: bool)
    ensures var kept := Evict(Live(st.sessions, now), victim);
      Created(st, now, hash, csrf, victim, w1, w2).sessions ==
      if w2 then kept[hash := NewSession(hash, csrf, now)] else kept - {hash}
  {
  }

  lemma CreatedFits(st: St, now: Time, hash: Hash, csrf: Csrf, victim: Option<Hash>, w1: bool, w2: bool)
    requires Tame(st) && Possible(st, Login(now, hash, csrf, victim, w1, w2))
    ensures Tame(Created(st, now, hash, csrf, victim, w1, w2))
  {
    CreatedSessions(st, now, hash, csrf, victim, w1, w2);
    PartFits(st.sessions, Live(st.sessions, now));
    EvictFits(Live(st.sessions, now), victim);
    var kept := Evict(Live(st.sessions, now), victim);
    InsertFits(kept, NewSession(hash, csrf, now));
    PartFits(kept, kept - {hash});
  }

  lemma ApplyTame(st: St, op: Op)
    requires Tame(st) && Possible(st, op)
    ensures Tame(Apply(st, op))
  {
    match op
    case Login(now, hash, csrf, victim, w1, w2) => CreatedFits(st, now, hash, csrf, victim, w1, w2);
    case Restart(fp, _, _, reloaded) => PartFits(Admitted(st, fp), reloaded);
    case _ => PartFits(st.sessions, Apply(st, op).sessions);
  }

  /** Never more than twenty sessions, in memory or on disk, whatever writes fail. */
  lemma {:induction false} SessionCap(sts: seq<St>, ops: seq<Op>, ts: seq<Time>, i: nat)
    requires History(sts, ops, ts) && i < |sts|
    ensures Tame(sts[i])
  {
    if i == 0 {
    } else {
      SessionCap(sts, ops, ts, i - 1);
      ApplyTame(sts[i - 1], ops[i - 1]);
    }
  }

  /** A live session a login displaces: the store was full, and it was a least recent one. */
  lemma EvictionIsFair(st: St, now: Time, hash: Hash, csrf: Csrf, victim: Option<Hash>, w1: bool, w2: bool, h: Hash)
    requires Keyed(st.sessions) && CreateVictim(st, now, victim)
    requires h in Live(st.sessions, now) && h != hash && h !in Created(st, now, hash, csrf, victim, w1, w2).sessions
    ensures victim == Some(h) && |Live(st.sessions, now)| >= 20
    ensures forall k | k in Created(st, now, hash, csrf, victim, w1, w2).sessions && k != hash ::
              k in st.sessions && st.sessions[h].createdAt <= st.sessions[k].createdAt
  {
    assert Pruned(st, now, w1).sessions == Live(st.sessions, now);
  }

  // ---- restarts ----

  /** From time t on, memory and file answer alike. */
  ghost predicate InSync(st: St, t: Time) {
    SameFrom(st.sessions, Admitted(st, st.fp), t)
  }

  lemma ApplySync(st: St, op: Op, t: Time, t': Time)
    requires InSync(st, t) && Possible(st, op) && Clean(op) && During(op, t, t')
    ensures InSync(Apply(st, op), t')
  {
    match op
    case Restart(fp, from, to, reloaded) => ReloadIsSame(Admitted(st, fp), from, to, reloaded);
    case _ =>
  }

  lemma {:induction false} HistorySync(sts: seq<St>, ops: seq<Op>, ts: seq<Time>, i: nat)
    requires History(sts, ops, ts) && i < |sts| && forall k | 0 <= k < |ops| :: Clean(ops[k])
    ensures InSync(sts[i], ts[i])
  {
    if i == 0 {
    } else {
      HistorySync(sts, ops, ts, i - 1);
      ApplySync(sts[i - 1], ops[i - 1], ts[i - 1], ts[i]);
    }
  }

  lemma RestartIsSame(sts: seq<St>, ops: seq<Op>, ts: seq<Time>, i: nat, op: Op, t: Time)
    requires History(sts, ops, ts) && i < |sts| && forall k | 0 <= k < |ops| :: Clean(ops[k])
    requires op.Restart? && op.fp == sts[i].fp && Possible(sts[i], op) && During(op, ts[i], t)
    ensures SameFrom(sts[i].sessions, Apply(sts[i], op).sessions, t)
  {
    HistorySync(sts, ops, ts, i);
    ReloadIsSame(Admitted(sts[i], op.fp), op.from, op.to, op.reloaded);
  }

  /**
    After any history without write failures, a restart under the same password answers every
    lookup at every later time as the running store would have.
   */
  lemma RestartIsTransparent(sts: seq<St>, ops: seq<Op>, ts: seq<Time>, i: nat, op: Op, u: Time, hash: Hash)
    requires History(sts, ops, ts) && i < |sts| && forall k | 0 <= k < |ops| :: Clean(ops[k])
    requires op.Restart? && op.fp == sts[i].fp && Possible(sts[i], op) && During(op, ts[i], u)
    ensures Answer(Apply(sts[i], op), u, hash) == Answer(sts[i], u, hash)
  {
    RestartIsSame(sts, ops, ts, i, op, u);
  }

  /** Under another password nothing is loaded. */
  lemma PasswordChangeDropsAll(st: St, op: Op)
    requires op.Restart? && Possible(st, op) && (st.file.Some? ==> st.file.value.fp != op.fp)
    ensures Apply(st, op).sessions == map[]
  {
    assert Apply(st, op).sessions.Keys == {};
  }

  /** Two stores that answer alike go on answering alike, call for call. */
  lemma ApplySame(a: St, b: St, op: Op, t: Time, t': Time)
    requires SameFrom(a.sessions, b.sessions, t) && !op.Restart? && Possible(a, op) && During(op, t, t')
    ensures Possible(b, op) && SameFrom(Apply(a, op).sessions, Apply(b, op).sessions, t')
  {
    match op
    case Login(now, hash, csrf, victim, w1, w2) =>
      SameFromIsLive(a.sessions, b.sessions, t);
      CreatedSessions(a, now, hash, csrf, victim, w1, w2);
      CreatedSessions(b, now, hash, csrf, victim, w1, w2);
    case Sweep(now, w) =>
      SameFromIsLive(a.sessions, b.sessions, t);
      assert Pruned(a, now, w).sessions == Live(a.sessions, now) == Live(b.sessions, now) == Pruned(b, now, w).sessions;
    case _ =>
  }

  ghost function ApplyAll(st: St, ops: seq<Op>): St {
    if ops == [] then st else Apply(ApplyAll(st, ops[..|ops| - 1]), ops[|ops| - 1])
  }

  /** The calls can be made one after the other, at the given times. */
  ghost predicate Feasible(st: St, ops: seq<Op>, ts: seq<Time>) {
    && |ts| == |ops| + 1
    && (ops == [] ||
        (var n := |ops| - 1;
         && Feasible(st, ops[..n], ts[..n + 1]) && !ops[n].Restart?
         && Possible(ApplyAll(st, ops[..n]), ops[n]) && During(ops[n], ts[n], ts[n + 1])))
  }

  /** Whatever calls follow, with or without write failures, nobody can tell that there was a restart. */
  lemma {:induction false} SameFuture(a: St, b: St, ops: seq<Op>, ts: seq<Time>)
    requires |ts| == |ops| + 1 && SameFrom(a.sessions, b.sessions, ts[0]) && Feasible(a, ops, ts)
    ensures Feasible(b, ops, ts) && SameFrom(ApplyAll(a, ops).sessions, ApplyAll(b, ops).sessions, ts[|ops|])
  {
    if ops == [] {
    } else {
      var n := |ops| - 1;
      SameFuture(a, b, ops[..n], ts[..n + 1]);
      ApplySame(ApplyAll(a, ops[..n]), ApplyAll(b, ops[..n]), ops[n], ts[n], ts[n + 1]);
    }
  }

  /** Load, as the store runs it, is such a restart. */
  lemma LoadIsRestart(list: seq<Session>, clock: seq<Time>, from: Time, to: Time)
    requires Tidy(list) && Fits(MapOf(list)) && |list| == |clock| &&
      forall i | 0 <= i < |list| :: from <= clock[i] <= to
    ensures Reloads(MapOf(list), from, to, Loaded(list, clock, HasCsrf))
  {
    forall i | 0 <= i < |list| ensures list[i].hash != "" && HasCsrf(list[i]) {
      MapOfMembers(list, list[i].hash);
    }
    LoadedReloads(list, clock, HasCsrf, from, to);
  }

  /** Both together: after a restart and any further calls, every lookup answers as without it. */
  lemma RestartIsInvisible(sts: seq<St>, ops: seq<Op>, ts: seq<Time>, i: nat, op: Op, more: seq<Op>,
      times: seq<Time>, u: Time, hash: Hash)
    requires History(sts, ops, ts) && i < |sts| && forall k | 0 <= k < |ops| :: Clean(ops[k])
    requires op.Restart? && op.fp == sts[i].fp && Possible(sts[i], op)
    requires Feasible(sts[i], more, times) && During(op, ts[i], times[0]) && times[|more|] <= u
    ensures Feasible(Apply(sts[i], op), more, times)
    ensures Answer(ApplyAll(Apply(sts[i], op), more), u, hash) == Answer(ApplyAll(sts[i], more), u, hash)
  {
    RestartIsSame(sts, ops, ts, i, op, times[0]);
    SameFuture(sts[i], Apply(sts[i], op), more, times);
  }
}
