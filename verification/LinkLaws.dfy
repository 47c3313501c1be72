/**
  What a share link is good for, in terms of lookups: its video's run from the issue until expiry,
  revocation, eviction or a restart that finds no record of it, and nothing after a revocation.
 */
module LinkLaws {
  import opened Model
  import opened TokenMap
  import opened LinkStore
  import opened LinkRuns

  const DAY := 24 * 3600 * 1_000_000_000

  // ---- one call ----

  /** The call draws or evicts this token, drops the links of its video, or restarts. */
  predicate Concerns(op: Op, hash: Hash, video: Id) {
    match op
    case Share(_, h, _, _, victim, _, _) => h == hash || victim == Some(hash)
    case Withdraw(v, _) => v == video
    case Sweep(_, _) => false
    case Restart(_, _, _) => true
  }

  /** A call for other tokens and videos changes no later answer of this link. */
  lemma OthersUnchanged(st: St, op: Op, hash: Hash, video: Id, t: Time, u: Time)
    requires !Concerns(op, hash, video) && During(op, t, u)
    requires hash in st.links ==> st.links[hash].body.video == video
    ensures Answer(Apply(st, op), u, hash) == Answer(st, u, hash)
    ensures hash in Apply(st, op).links ==> Apply(st, op).links[hash].body.video == video
  {
    match op
    case Share(now, h, v, at, victim, w1, w2) => IssuedLinks(st, now, h, v, at, victim, w1, w2);
    case _ =>
  }

  /** A link that is issued answers lookups with its run for 24 hours; a failed issue answers nothing. */
  lemma ShareAnswers(st: St, now: Time, hash: Hash, video: Id, at: Time, victim: Option<Hash>, w1: bool, w2: bool,
      u: Time)
    ensures var st' := Apply(st, Share(now, hash, video, at, victim, w1, w2));
      && Answer(st', u, hash) == (if w2 && u < now + DAY then Some(Target(video, at)) else None)
      && (hash in st'.links ==> st'.links[hash].body.video == video)
  {
    IssuedLinks(st, now, hash, video, at, victim, w1, w2);
  }

  /** A revocation leaves no link of the video and every link of the others. */
  lemma WithdrawAnswers(st: St, video: Id, w: bool, hash: Hash, u: Time)
    ensures var st' := Apply(st, Withdraw(video, w));
      Answer(st', u, hash) ==
      if Answer(st, u, hash).Some? && Answer(st, u, hash).value.video == video then None else Answer(st, u, hash)
  {
    assert hash in st.links && st.links[hash].body.video == video ==> hash in Scope(st.links, video);
  }

  /** A call whose writes succeed and that changes the links leaves exactly them in the file. */
  lemma ChangesAreWritten(st: St, op: Op)
    requires Clean(op) && !op.Restart? && Apply(st, op).links != st.links
    ensures Apply(st, op).file == Some(Apply(st, op).links)
  {
  }

  /** A restart answers exactly what the file holds and is still live. */
  lemma RestartAnswers(st: St, op: Op, hash: Hash, u: Time)
    requires op.Restart? && Possible(st, op) && op.to <= u
    ensures Answer(Apply(st, op), u, hash) ==
      if st.file.Some? && hash in st.file.value && st.file.value[hash].expiresAt > u
      then Some(st.file.value[hash].body) else None
  {
  }

  // ---- after a revocation ----

  /** No link of the video, in memory or on file. */
  ghost predicate Bare(st: St, video: Id) {
    && (forall h | h in st.links :: st.links[h].body.video != video)
    && (st.file.Some? ==> forall h | h in st.file.value :: st.file.value[h].body.video != video)
  }

  /** No link of the video in memory. */
  ghost predicate NoLinks(st: St, video: Id) {
    forall h | h in st.links :: st.links[h].body.video != video
  }

  predicate NotShared(op: Op, video: Id) {
    op.Share? && op.w2 ==> op.video != video
  }

  ghost predicate NeverShared(ops: seq<Op>, i: nat, j: nat, video: Id)
    requires j <= |ops|
  {
    forall k | i <= k < j :: NotShared(ops[k], video)
  }

  ghost predicate NoRestarts(ops: seq<Op>, i: nat, j: nat)
    requires j <= |ops|
  {
    forall k | i <= k < j :: !ops[k].Restart?
  }

  lemma NoLinksStay(st: St, op: Op, video: Id)
    requires NoLinks(st, video) && !op.Restart? && NotShared(op, video)
    ensures NoLinks(Apply(st, op), video)
  {
    match op
    case Share(now, h, v, at, victim, w1, w2) => IssuedLinks(st, now, h, v, at, victim, w1, w2);
    case _ =>
  }

  lemma BareStays(st: St, op: Op, video: Id)
    requires Bare(st, video) && Possible(st, op) && NotShared(op, video)
    ensures Bare(Apply(st, op), video)
  {
    match op
    case Share(now, h, v, at, victim, w1, w2) => IssuedLinks(st, now, h, v, at, victim, w1, w2);
    case _ =>
  }

  lemma WithdrawDrops(st: St, video: Id, w: bool)
    ensures NoLinks(Apply(st, Withdraw(video, w)), video)
  {
    assert forall h | h in st.links && st.links[h].body.video == video :: h in Scope(st.links, video);
  }

  lemma {:induction false} RevokedUntilRestart(sts: seq<St>, ops: seq<Op>, ts: seq<Time>, i: nat, j: nat, video: Id)
    requires History(sts, ops, ts) && i < j < |sts| && ops[i].Withdraw? && ops[i].video == video
    requires NeverShared(ops, i + 1, j, video) && NoRestarts(ops, i + 1, j)
    ensures NoLinks(sts[j], video)
    decreases j
  {
    if j == i + 1 {
      WithdrawDrops(sts[i], video, ops[i].w);
    } else {
      RevokedUntilRestart(sts, ops, ts, i, j - 1, video);
      assert NotShared(ops[j - 1], video);
      NoLinksStay(sts[j - 1], ops[j - 1], video);
    }
  }

  /** After a revocation no lookup names the video until a link of it is issued again or the server restarts. */
  lemma RevocationEnds(sts: seq<St>, ops: seq<Op>, ts: seq<Time>, i: nat, j: nat, video: Id, hash: Hash, u: Time)
    requires History(sts, ops, ts) && i < j < |sts| && ops[i].Withdraw? && ops[i].video == video
    requires NeverShared(ops, i + 1, j, video) && NoRestarts(ops, i + 1, j)
    ensures Answer(sts[j], u, hash).Some? ==> Answer(sts[j], u, hash).value.video != video
  {
    RevokedUntilRestart(sts, ops, ts, i, j, video);
  }

  lemma {:induction false} BareForGood(sts: seq<St>, ops: seq<Op>, ts: seq<Time>, i: nat, j: nat, video: Id)
    requires History(sts, ops, ts) && i <= j < |sts| && Bare(sts[i], video) && NeverShared(ops, i, j, video)
    ensures Bare(sts[j], video)
  {
    if i == j {
    } else {
      BareForGood(sts, ops, ts, i, j - 1, video);
      assert NotShared(ops[j - 1], video);
      BareStays(sts[j - 1], ops[j - 1], video);
    }
  }

  /** One that had a link to drop and wrote the file is final, through every restart. */
  lemma WrittenRevocationEnds(sts: seq<St>, ops: seq<Op>, ts: seq<Time>, i: nat, j: nat, video: Id, hash: Hash,
      u: Time)
    requires History(sts, ops, ts) && i < j < |sts| && ops[i] == Withdraw(video, true)
    requires exists h :: h in sts[i].links && sts[i].links[h].body.video == video
    requires NeverShared(ops, i + 1, j, video)
    ensures Answer(sts[j], u, hash).Some? ==> Answer(sts[j], u, hash).value.video != video
  {
    var h :| h in sts[i].links && sts[i].links[h].body.video == video;
    assert h in Scope(sts[i].links, video);
    BareForGood(sts, ops, ts, i + 1, j, video);
  }

  // ---- while it is valid ----

  ghost predicate Untouched(ops: seq<Op>, i: nat, j: nat, hash: Hash, video: Id)
    requires j <= |ops|
  {
    forall k | i <= k < j :: !Concerns(ops[k], hash, video)
  }

  /**
    A link is answered with its run from its issue until its day is over, whatever is called in
    between and whatever writes fail, unless a call revokes its video, evicts it, draws its token
    again, or the server restarts.
   */
  lemma {:induction false} LinkLives(sts: seq<St>, ops: seq<Op>, ts: seq<Time>, i: nat, j: nat, u: Time)
    requires History(sts, ops, ts) && i < j < |sts| && ops[i].Share? && ops[i].w2
    requires Untouched(ops, i + 1, j, ops[i].hash, ops[i].video) && ts[j] <= u
    ensures Answer(sts[j], u, ops[i].hash) ==
      if u < ops[i].now + DAY then Some(Target(ops[i].video, ops[i].jobAt)) else None
    ensures ops[i].hash in sts[j].links ==> sts[j].links[ops[i].hash].body.video == ops[i].video
    decreases j
  {
    var op := ops[i];
    if j == i + 1 {
      ShareAnswers(sts[i], op.now, op.hash, op.video, op.jobAt, op.victim, op.w1, op.w2, u);
    } else {
      LinkLives(sts, ops, ts, i, j - 1, u);
      assert !Concerns(ops[j - 1], op.hash, op.video);
      OthersUnchanged(sts[j - 1], ops[j - 1], op.hash, op.video, ts[j - 1], u);
    }
  }
}
