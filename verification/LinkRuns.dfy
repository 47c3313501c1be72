/** Whole histories of the link store: the cap for each video, evictions, revocation, restarts. */
module LinkRuns {
  import opened Model
  import opened TokenMap
  import opened LinkStore

  /** One call, with everything that was drawn, chosen or answered; a restart loads the file. */
  datatype Op =
    | Share(now: Time, hash: Hash, video: Id, jobAt: Time, victim: Option<Hash>, w1: bool, w2: bool)
    | Withdraw(video: Id, w: bool)
    | Sweep(now: Time, w: bool)
    | Restart(from: Time, to: Time, reloaded: Links)

  ghost function OnFile(st: St): Links {
    if st.file.Some? then st.file.value else map[]
  }

  ghost predicate Possible(st: St, op: Op) {
    match op
    case Share(now, hash, video, _, victim, _, _) => hash != "" && video != "" && IssueVictim(st, now, video, victim)
    case Restart(from, to, reloaded) => Reloads(OnFile(st), from, to, reloaded)
    case _ => true
  }

  ghost function Apply(st: St, op: Op): St {
    match op
    case Share(now, hash, video, jobAt, victim, w1, w2) => Issued(st, now, hash, video, jobAt, victim, w1, w2)
    case Withdraw(video, w) => Revoked(st, video, w)
    case Sweep(now, w) => Pruned(st, now, w)
    case Restart(_, _, reloaded) => St(reloaded, st.file)
  }

  predicate During(op: Op, t: Time, t': Time) {
    && t <= t'
    && match op
       case Share(now, _, _, _, _, _, _) => t <= now <= t'
       case Sweep(now, _) => t <= now <= t'
       case Restart(from, to, _) => t <= from <= to <= t'
       case Withdraw(_, _) => true
  }

  /** Every write the call makes succeeds. */
  predicate Clean(op: Op) {
    match op
    case Share(_, _, _, _, _, w1, w2) => w1 && w2
    case Withdraw(_, w) => w
    case Sweep(_, w) => w
    case Restart(_, _, _) => true
  }

  ghost predicate History(sts: seq<St>, ops: seq<Op>, ts: seq<Time>) {
    && |sts| == |ts| == |ops| + 1 && sts[0].links == map[] && sts[0].file == None
    && (forall i | 0 <= i < |ops| ::
          Possible(sts[i], ops[i]) && sts[i + 1] == Apply(sts[i], ops[i]) && During(ops[i], ts[i], ts[i + 1]))
  }

  // ---- caps ----

  ghost predicate Fits(m: Links) {
    && Keyed(m) && (forall h | h in m :: HasVideo(m[h]))
    && (forall v: Id :: |Scope(m, v)| <= 8)
  }

  ghost predicate Tame(st: St) {
    Fits(st.links) && (st.file.Some? ==> Fits(st.file.value))
  }

  lemma PartFits(m: Links, m': Links)
    requires Fits(m) && m'.Keys <= m.Keys && forall h | h in m' :: m'[h] == m[h]
    ensures Fits(m')
  {
    forall v: Id ensures |Scope(m', v)| <= MAX_LINKS {
      SubsetSize(Scope(m', v), Scope(m, v));
    }
  }

  lemma EvictFits(m: Links, video: Id, victim: Option<Hash>)
    requires Fits(m) && Victim(m, Scope(m, video), MAX_LINKS, victim)
    ensures Fits(Evict(m, victim)) && |Scope(Evict(m, victim), video)| < MAX_LINKS
  {
    PartFits(m, Evict(m, victim));
    assert victim.Some? ==> Scope(Evict(m, victim), video) == Scope(m, video) - {victim.value};
  }

  lemma InsertFits(m: Links, link: Link)
    requires Fits(m) && |Scope(m, link.body.video)| < MAX_LINKS && link.hash != "" && HasVideo(link)
    ensures Fits(m[link.hash := link])
  {
    var m' := m[link.hash := link];
    forall v: Id ensures |Scope(m', v)| <= MAX_LINKS {
      if v == link.body.video {
        assert Scope(m', v) == Scope(m, v) + {link.hash};
      } else {
        SubsetSize(Scope(m', v), Scope(m, v));
      }
    }
  }

  /** The links after an issue, whatever file writes do. */
  lemma IssuedLinks(st: St, now: Time, hash: Hash, video: Id, jobAt: Time, victim: Option<Hash>, w1: bool, w2: bool)
    ensures var kept := Evict(Live(st.links, now), victim);
      Issued(st, now, hash, video, jobAt, victim, w1, w2).links ==
      if w2 then kept[hash := NewLink(hash, video, jobAt, now)] else kept - {hash}
  {
  }

  lemma IssuedFits(st: St, now: Time, hash: Hash, video: Id, jobAt: Time, victim: Option<Hash>, w1: bool, w2: bool)
    requires Tame(st) && Possible(st, Share(now, hash, video, jobAt, victim, w1, w2))
    ensures Tame(Issued(st, now, hash, video, jobAt, victim, w1, w2))
  {
    IssuedLinks(st, now, hash, video, jobAt, victim, w1, w2);
    PartFits(st.links, Live(st.links, now));
    EvictFits(Live(st.links, now), video, victim);
    var kept := Evict(Live(st.links, now), victim);
    InsertFits(kept, NewLink(hash, video, jobAt, now));
    PartFits(kept, kept - {hash});
  }

  lemma ApplyTame(st: St, op: Op)
    requires Tame(st) && Possible(st, op)
    ensures Tame(Apply(st, op))
  {
    match op
    case Share(now, hash, video, jobAt, victim, w1, w2) => IssuedFits(st, now, hash, video, jobAt, victim, w1, w2);
    case Restart(_, _, reloaded) =>
      assert Fits(map[]) by {
        assert forall v: Id :: Scope(map[], v) == {};
      }
      PartFits(OnFile(st), reloaded);
    case _ => PartFits(st.links, Apply(st, op).links);
  }

  /** Never more than eight links for one video, in memory or on disk, whatever writes fail. */
  lemma {:induction false} LinkCap(sts: seq<St>, ops: seq<Op>, ts: seq<Time>, i: nat)
    requires History(sts, ops, ts) && i < |sts|
    ensures Tame(sts[i])
  {
    if i == 0 {
      assert forall v: Id :: Scope(map[], v) == {};
    } else {
      LinkCap(sts, ops, ts, i - 1);
      ApplyTame(sts[i - 1], ops[i - 1]);
    }
  }

  /** A live link an issue displaces: the same video's, one of eight, and a least recent one. */
  lemma EvictionIsFair(st: St, now: Time, hash: Hash, video: Id, jobAt: Time, victim: Option<Hash>, w1: bool,
      w2: bool, h: Hash)
    requires Keyed(st.links) && IssueVictim(st, now, video, victim)
    requires h in Live(st.links, now) && h != hash && h !in Issued(st, now, hash, video, jobAt, victim, w1, w2).links
    ensures victim == Some(h) && st.links[h].body.video == video && |Scope(Live(st.links, now), video)| >= 8
    ensures forall k | k in Scope(Issued(st, now, hash, video, jobAt, victim, w1, w2).links, video) && k != hash ::
              k in st.links && st.links[h].createdAt <= st.links[k].createdAt
  {
    IssuedLinks(st, now, hash, video, jobAt, victim, w1, w2);
  }

  // ---- restarts ----

  /** From time t on, memory and file answer alike. */
  ghost predicate InSync(st: St, t: Time) {
    SameFrom(st.links, OnFile(st), t)
  }

  lemma ApplySync(st: St, op: Op, t: Time, t': Time)
    requires InSync(st, t) && Possible(st, op) && Clean(op) && During(op, t, t')
    ensures InSync(Apply(st, op), t')
  {
    match op
    case Restart(from, to, reloaded) => ReloadIsSame(OnFile(st), from, to, reloaded);
    case _ =>
  }

  lemma {:induction false} HistorySync(sts: seq<St>, ops: seq<Op>, ts: seq<Time>, i: nat)
    requires History(sts, ops, ts) && i < |sts| && forall k | 0 <= k < |ops| :: Clean(ops[k])
    ensures InSync(sts[i], ts[i])
  {
    if i == 0 {
    } else {
      HistorySync(sts, ops, ts, i - 1);
      ApplySync(sts[i - 1], ops[i - 1], ts[i - 1], ts[i]);
    }
  }

  lemma RestartIsSame(sts: seq<St>, ops: seq<Op>, ts: seq<Time>, i: nat, op: Op, t: Time)
    requires History(sts, ops, ts) && i < |sts| && forall k | 0 <= k < |ops| :: Clean(ops[k])
    requires op.Restart? && Possible(sts[i], op) && During(op, ts[i], t)
    ensures SameFrom(sts[i].links, Apply(sts[i], op).links, t)
  {
    HistorySync(sts, ops, ts, i);
    ReloadIsSame(OnFile(sts[i]), op.from, op.to, op.reloaded);
  }

  /** After any history without write failures, a restart answers every later lookup as before. */
  lemma RestartIsTransparent(sts: seq<St>, ops: seq<Op>, ts: seq<Time>, i: nat, op: Op, u: Time, hash: Hash)
    requires History(sts, ops, ts) && i < |sts| && forall k | 0 <= k < |ops| :: Clean(ops[k])
    requires op.Restart? && Possible(sts[i], op) && During(op, ts[i], u)
    ensures Answer(Apply(sts[i], op), u, hash) == Answer(sts[i], u, hash)
  {
    RestartIsSame(sts, ops, ts, i, op, u);
  }

  /** Load, as the store runs it, is such a restart. */
  lemma LoadIsRestart(list: seq<Link>, clock: seq<Time>, from: Time, to: Time)
    requires Tidy(list) && Fits(MapOf(list)) && |list| == |clock| &&
      forall i | 0 <= i < |list| :: from <= clock[i] <= to
    ensures Reloads(MapOf(list), from, to, Loaded(list, clock, HasVideo))
  {
    forall i | 0 <= i < |list| ensures list[i].hash != "" && HasVideo(list[i]) {
      MapOfMembers(list, list[i].hash);
    }
    LoadedReloads(list, clock, HasVideo, from, to);
  }

  /** Two stores that answer alike go on answering alike, call for call. */
  lemma ApplySame(a: St, b: St, op: Op, t: Time, t': Time)
    requires SameFrom(a.links, b.links, t) && !op.Restart? && Possible(a, op) && During(op, t, t')
    ensures Possible(b, op) && SameFrom(Apply(a, op).links, Apply(b, op).links, t')
  {
    match op
    case Share(now, hash, video, jobAt, victim, w1, w2) =>
      SameFromIsLive(a.links, b.links, t);
      IssuedLinks(a, now, hash, video, jobAt, victim, w1, w2);
      IssuedLinks(b, now, hash, video, jobAt, victim, w1, w2);
    case Sweep(now, w) =>
      SameFromIsLive(a.links, b.links, t);
      assert Pruned(a, now, w).links == Live(a.links, now) == Live(b.links, now) == Pruned(b, now, w).links;
    case Withdraw(video, w) =>
      assert Apply(a, op).links == a.links - Scope(a.links, video);
      assert Apply(b, op).links == b.links - Scope(b.links, video);
    case Restart(_, _, _) =>
  }

  ghost function ApplyAll(st: St, ops: seq<Op>): St {
    if ops == [] then st else Apply(ApplyAll(st, ops[..|ops| - 1]), ops[|ops| - 1])
  }

  ghost predicate Feasible(st: St, ops: seq<Op>, ts: seq<Time>) {
    && |ts| == |ops| + 1
    && (ops == [] ||
        (var n := |ops| - 1;
         && Feasible(st, ops[..n], ts[..n + 1]) && !ops[n].Restart?
         && Possible(ApplyAll(st, ops[..n]), ops[n]) && During(ops[n], ts[n], ts[n + 1])))
  }

  /** Whatever calls follow, with or without write failures, nobody can tell that there was a restart. */
  lemma {:induction false} SameFuture(a: St, b: St, ops: seq<Op>, ts: seq<Time>)
    requires |ts| == |ops| + 1 && SameFrom(a.links, b.links, ts[0]) && Feasible(a, ops, ts)
    ensures Feasible(b, ops, ts) && SameFrom(ApplyAll(a, ops).links, ApplyAll(b, ops).links, ts[|ops|])
  {
    if ops == [] {
    } else {
      var n := |ops| - 1;
      SameFuture(a, b, ops[..n], ts[..n + 1]);
      ApplySame(ApplyAll(a, ops[..n]), ApplyAll(b, ops[..n]), ops[n], ts[n], ts[n + 1]);
    }
  }

  /** Both together: after a restart and any further calls, every lookup answers as without it. */
  lemma RestartIsInvisible(sts: seq<St>, ops: seq<Op>, ts: seq<Time>, i: nat, op: Op, more: seq<Op>,
      times: seq<Time>, u: Time, hash: Hash)
    requires History(sts, ops, ts) && i < |sts| && forall k | 0 <= k < |ops| :: Clean(ops[k])
    requires op.Restart? && Possible(sts[i], op)
    requires Feasible(sts[i], more, times) && During(op, ts[i], times[0]) && times[|more|] <= u
    ensures Feasible(Apply(sts[i], op), more, times)
    ensures Answer(ApplyAll(Apply(sts[i], op), more), u, hash) == Answer(ApplyAll(sts[i], more), u, hash)
  {
    RestartIsSame(sts, ops, ts, i, op, times[0]);
    SameFuture(sts[i], Apply(sts[i], op), more, times);
  }
}
