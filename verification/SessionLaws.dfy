/**
  What a session token is good for, in terms of lookups: from login until expiry, logout,
  eviction or a restart that finds no record of it, and never after a logout.
 */
module SessionLaws {
  import opened Model
  import opened TokenMap
  import opened SessionStore
  import opened SessionRuns

  // ---- one call ----

  /** The call draws, drops or evicts this token, or is about all of them. */
  predicate Concerns(op: Op, hash: Hash) {
    match op
    case Login(_, h, _, victim, _, _) => h == hash || victim == Some(hash)
    case Ask(_, h, _) => false
    case Logout(h, _) => h == hash
    case LogoutAll(_) => true
    case Sweep(_, _) => false
    case Restart(_, _, _, _) => true
  }

  /** A call for other tokens changes no later answer of this one, and a lookup none at all. */
  lemma OthersUnchanged(st: St, op: Op, hash: Hash, t: Time, u: Time)
    requires !Concerns(op, hash) && During(op, t, u)
    ensures Answer(Apply(st, op), u, hash) == Answer(st, u, hash)
  {
    match op
    case Login(now, h, csrf, victim, w1, w2) => CreatedSessions(st, now, h, csrf, victim, w1, w2);
    case _ =>
  }

  /** What a login promises for lookups at time u: its session for thirty days, nothing from then on. */
  function Granted(op: Op, u: Time): Option<Session>
    requires op.Login?
  {
    var until := op.now + 30 * 24 * 3600 * 1_000_000_000;
    if u < until then Some(Entry(op.hash, op.now, until, op.csrf)) else None
  }

  /** A login that is answered with a time keeps the promise; one whose write failed leaves no session. */
  lemma LoginAnswers(st: St, op: Op, u: Time)
    requires op.Login?
    ensures Answer(Apply(st, op), u, op.hash) == if op.w2 then Granted(op, u) else None
  {
    CreatedSessions(st, op.now, op.hash, op.csrf, op.victim, op.w1, op.w2);
  }

  /** A call whose writes succeed and that changes the sessions leaves exactly them in the file. */
  lemma ChangesAreWritten(st: St, op: Op)
    requires Clean(op) && !op.Restart? && Apply(st, op).sessions != st.sessions
    ensures Apply(st, op).file == Some(Saved(st.fp, Apply(st, op).sessions))
  {
  }

  lemma LogoutAnswers(st: St, hash: Hash, w: bool, u: Time)
    ensures Answer(Apply(st, Logout(hash, w)), u, hash) == None
  {
  }

  lemma LogoutAllAnswers(st: St, w: bool, hash: Hash, u: Time)
    ensures Answer(Apply(st, LogoutAll(w)), u, hash) == None
  {
  }

  /** A lookup keeps a live session and removes an expired one. */
  lemma AskKeeps(st: St, now: Time, hash: Hash, w: bool)
    ensures hash in Apply(st, Ask(now, hash, w)).sessions <==> Answer(st, now, hash).Some?
  {
  }

  /** A restart answers from the file: exactly what it holds under the same fingerprint and is still live. */
  lemma RestartAnswers(st: St, op: Op, hash: Hash, u: Time)
    requires op.Restart? && Possible(st, op) && op.to <= u
    ensures Answer(Apply(st, op), u, hash) ==
      if st.file.Some? && st.file.value.fp == op.fp && hash in st.file.value.sessions
         && st.file.value.sessions[hash].expiresAt > u
      then Some(st.file.value.sessions[hash]) else None
  {
  }

  // ---- after a logout ----

  /** The call does not make the token valid again. */
  predicate NotDrawn(op: Op, hash: Hash) {
    op.Login? && op.w2 ==> op.hash != hash
  }

  ghost predicate NeverDrawn(ops: seq<Op>, i: nat, j: nat, hash: Hash)
    requires j <= |ops|
  {
    forall k | i <= k < j :: NotDrawn(ops[k], hash)
  }

  /** Not in memory, and not in the file under this fingerprint, unless expired. */
  ghost predicate Out(st: St, fp: string, hash: Hash, t: Time) {
    && hash !in st.sessions
    && (hash in Admitted(st, fp) ==> Admitted(st, fp)[hash].expiresAt <= t)
  }

  predicate RestartsUnder(op: Op, fp: string) {
    op.Restart? ==> op.fp == fp
  }

  lemma StaysOut(st: St, op: Op, fp: string, hash: Hash, t: Time, t': Time)
    requires Out(st, fp, hash, t) && Possible(st, op) && During(op, t, t') && NotDrawn(op, hash)
    requires RestartsUnder(op, fp)
    ensures Out(Apply(st, op), fp, hash, t')
  {
    match op
    case Login(now, h, csrf, victim, w1, w2) => CreatedSessions(st, now, h, csrf, victim, w1, w2);
    case _ =>
  }

  ghost predicate AllUnder(ops: seq<Op>, i: nat, j: nat, fp: string)
    requires j <= |ops|
  {
    forall k | i <= k < j :: RestartsUnder(ops[k], fp)
  }

  lemma {:induction false} OutStays(sts: seq<St>, ops: seq<Op>, ts: seq<Time>, i: nat, j: nat, fp: string, hash: Hash)
    requires History(sts, ops, ts) && i <= j < |sts| && Out(sts[i], fp, hash, ts[i])
    requires NeverDrawn(ops, i, j, hash) && AllUnder(ops, i, j, fp)
    ensures Out(sts[j], fp, hash, ts[j])
  {
    if i == j {
    } else {
      OutStays(sts, ops, ts, i, j - 1, fp, hash);
      assert NotDrawn(ops[j - 1], hash) && RestartsUnder(ops[j - 1], fp);
      StaysOut(sts[j - 1], ops[j - 1], fp, hash, ts[j - 1], ts[j]);
    }
  }

  /** What a logout leaves when memory and file agreed before, or when it wrote the file itself. */
  lemma LogoutIsOut(st: St, hash: Hash, w: bool, t: Time)
    requires InSync(st, t) || hash in st.sessions
    requires w
    ensures Out(Apply(st, Logout(hash, w)), st.fp, hash, t)
  {
  }

  /**
    After a logout the token is answered by no lookup, at any later time, until it is drawn
    again, also through restarts under the same password: when nothing failed to be written up
    to the logout.
   */
  lemma LogoutEnds(sts: seq<St>, ops: seq<Op>, ts: seq<Time>, i: nat, j: nat, hash: Hash, w: bool, u: Time)
    requires History(sts, ops, ts) && i < j < |sts| && ops[i] == Logout(hash, w)
    requires forall k | 0 <= k <= i :: Clean(ops[k])
    requires NeverDrawn(ops, i + 1, j, hash) && AllUnder(ops, i + 1, j, sts[i].fp)
    ensures Answer(sts[j], u, hash) == None
  {
    CleanSync(sts, ops, ts, i);
    assert Clean(ops[i]);
    LogoutIsOut(sts[i], hash, w, ts[i]);
    OutLater(sts[i + 1], sts[i].fp, hash, ts[i], ts[i + 1]);
    OutStays(sts, ops, ts, i + 1, j, sts[i].fp, hash);
  }

  lemma OutLater(st: St, fp: string, hash: Hash, t: Time, t': Time)
    requires Out(st, fp, hash, t) && t <= t'
    ensures Out(st, fp, hash, t')
  {
  }

  lemma {:induction false} CleanSync(sts: seq<St>, ops: seq<Op>, ts: seq<Time>, i: nat)
    requires History(sts, ops, ts) && i < |sts| && forall k | 0 <= k < i :: Clean(ops[k])
    ensures InSync(sts[i], ts[i])
  {
    if i == 0 {
    } else {
      CleanSync(sts, ops, ts, i - 1);
      ApplySync(sts[i - 1], ops[i - 1], ts[i - 1], ts[i]);
    }
  }

  predicate NoRestart(op: Op) {
    !op.Restart?
  }

  ghost predicate NoRestarts(ops: seq<Op>, i: nat, j: nat)
    requires j <= |ops|
  {
    forall k | i <= k < j :: NoRestart(ops[k])
  }

  lemma AbsentStays(st: St, op: Op, hash: Hash)
    requires hash !in st.sessions && NoRestart(op) && NotDrawn(op, hash)
    ensures hash !in Apply(st, op).sessions
  {
    match op
    case Login(now, h, csrf, victim, w1, w2) => CreatedSessions(st, now, h, csrf, victim, w1, w2);
    case _ =>
  }

  lemma {:induction false} AbsentUntilDrawn(sts: seq<St>, ops: seq<Op>, ts: seq<Time>, i: nat, j: nat, hash: Hash)
    requires History(sts, ops, ts) && i <= j < |sts| && hash !in sts[i].sessions
    requires NeverDrawn(ops, i, j, hash) && NoRestarts(ops, i, j)
    ensures hash !in sts[j].sessions
  {
    if i == j {
    } else {
      AbsentUntilDrawn(sts, ops, ts, i, j - 1, hash);
      assert NotDrawn(ops[j - 1], hash) && NoRestart(ops[j - 1]);
      AbsentStays(sts[j - 1], ops[j - 1], hash);
    }
  }

  /** Until the next restart that holds whatever could be written, and for a logout of all likewise. */
  lemma LogoutEndsNow(sts: seq<St>, ops: seq<Op>, ts: seq<Time>, i: nat, j: nat, hash: Hash, u: Time)
    requires History(sts, ops, ts) && i < j < |sts|
    requires (ops[i].Logout? && ops[i].hash == hash) || ops[i].LogoutAll?
    requires NeverDrawn(ops, i + 1, j, hash) && NoRestarts(ops, i + 1, j)
    ensures Answer(sts[j], u, hash) == None
  {
    AbsentUntilDrawn(sts, ops, ts, i + 1, j, hash);
  }

  ghost predicate OutEverywhere(st: St, hash: Hash) {
    hash !in st.sessions && (st.file.Some? ==> hash !in st.file.value.sessions)
  }

  lemma StaysOutEverywhere(st: St, op: Op, hash: Hash)
    requires OutEverywhere(st, hash) && Possible(st, op) && NotDrawn(op, hash)
    ensures OutEverywhere(Apply(st, op), hash)
  {
    match op
    case Login(now, h, csrf, victim, w1, w2) => CreatedSessions(st, now, h, csrf, victim, w1, w2);
    case _ =>
  }

  lemma {:induction false} OutEverywhereStays(sts: seq<St>, ops: seq<Op>, ts: seq<Time>, i: nat, j: nat, hash: Hash)
    requires History(sts, ops, ts) && i <= j < |sts| && OutEverywhere(sts[i], hash) && NeverDrawn(ops, i, j, hash)
    ensures OutEverywhere(sts[j], hash)
  {
    if i == j {
    } else {
      OutEverywhereStays(sts, ops, ts, i, j - 1, hash);
      assert NotDrawn(ops[j - 1], hash);
      StaysOutEverywhere(sts[j - 1], ops[j - 1], hash);
    }
  }

  /**
    After a logout that had a session to drop and wrote the file, or a logout of all that did, no
    restart under any password and no failing write brings the token back.
   */
  lemma WrittenLogoutEnds(sts: seq<St>, ops: seq<Op>, ts: seq<Time>, i: nat, j: nat, hash: Hash, u: Time)
    requires History(sts, ops, ts) && i < j < |sts| && NeverDrawn(ops, i + 1, j, hash)
    requires || (ops[i] == Logout(hash, true) && hash in sts[i].sessions)
             || ops[i] == LogoutAll(true)
    ensures Answer(sts[j], u, hash) == None
  {
    OutEverywhereStays(sts, ops, ts, i + 1, j, hash);
  }

  /** One whose write failed is undone by a restart: the file still has the session. */
  lemma FailedLogoutIsUndone() returns (st: St, op: Op)
    ensures st == Apply(Apply(St("p", map[], None), Login(0, "h", "c", None, true, true)), Logout("h", false))
    ensures op.Restart? && op.fp == st.fp && Possible(st, op)
    ensures Answer(st, 1, "h") == None && Answer(Apply(st, op), 1, "h").Some?
  {
    var sess := NewSession("h", "c", 0);
    st := Apply(Apply(St("p", map[], None), Login(0, "h", "c", None, true, true)), Logout("h", false));
    op := Restart("p", 1, 1, map["h" := sess]);
    LoginWrites("h", "c");
  }

  lemma LoginWrites(hash: Hash, csrf: Csrf)
    ensures var st := Apply(St("p", map[], None), Login(0, hash, csrf, None, true, true));
      st == St("p", map[hash := NewSession(hash, csrf, 0)], Some(Saved("p", map[hash := NewSession(hash, csrf, 0)])))
  {
    var m: Sessions := map[];
    assert Live(m, 0) == m;
  }

  // ---- while it is valid ----

  ghost predicate Untouched(ops: seq<Op>, i: nat, j: nat, hash: Hash)
    requires j <= |ops|
  {
    forall k | i <= k < j :: !Concerns(ops[k], hash)
  }

  /**
    A session is answered from its login until its time is over, whatever is called in between and
    whatever writes fail, unless a call drops it, evicts it, draws its token again, or the server restarts.
   */
  lemma SessionLives(sts: seq<St>, ops: seq<Op>, ts: seq<Time>, i: nat, j: nat, u: Time)
    requires History(sts, ops, ts) && i < j < |sts| && ops[i].Login? && ops[i].w2
    requires Untouched(ops, i + 1, j, ops[i].hash) && ts[j] <= u
    ensures Answer(sts[j], u, ops[i].hash) == Granted(ops[i], u)
  {
    LoginGrants(sts, ops, ts, i, u);
    AnswerLives(sts, ops, ts, ops[i].hash, i + 1, j, u);
  }

  lemma {:induction false} AnswerLives(sts: seq<St>, ops: seq<Op>, ts: seq<Time>, hash: Hash, i: nat, j: nat, u: Time)
    requires History(sts, ops, ts) && i <= j < |sts| && Untouched(ops, i, j, hash) && ts[j] <= u
    ensures Answer(sts[j], u, hash) == Answer(sts[i], u, hash)
    decreases j
  {
    if i == j {
    } else {
      LivesOn(sts, ops, ts, hash, i, j, u);
      AnswerLives(sts, ops, ts, hash, i, j - 1, u);
    }
  }

  lemma LoginGrants(sts: seq<St>, ops: seq<Op>, ts: seq<Time>, i: nat, u: Time)
    requires History(sts, ops, ts) && i < |ops| && ops[i].Login? && ops[i].w2
    ensures Answer(sts[i + 1], u, ops[i].hash) == Granted(ops[i], u)
  {
    LoginAnswers(sts[i], ops[i], u);
  }

  lemma LivesOn(sts: seq<St>, ops: seq<Op>, ts: seq<Time>, hash: Hash, i: nat, j: nat, u: Time)
    requires History(sts, ops, ts) && i < j < |sts| && Untouched(ops, i, j, hash) && ts[j] <= u
    ensures ts[j - 1] <= u && Untouched(ops, i, j - 1, hash) && Answer(sts[j], u, hash) == Answer(sts[j - 1], u, hash)
  {
    var k := j - 1;
    assert !Concerns(ops[k], hash);
    DuringLater(ops[k], ts[k], ts[j], u);
    OthersUnchanged(sts[k], ops[k], hash, ts[k], u);
  }

  lemma DuringLater(op: Op, t: Time, t': Time, u: Time)
    requires During(op, t, t') && t' <= u
    ensures During(op, t, u)
  {
  }

  predicate Spares(op: Op, hash: Hash, fp: string) {
    if op.Restart? then op.fp == fp else !Concerns(op, hash)
  }

  ghost predicate AllSpare(ops: seq<Op>, i: nat, j: nat, hash: Hash, fp: string)
    requires j <= |ops|
  {
    forall k | i <= k < j :: Spares(ops[k], hash, fp)
  }

  /** With every write made, it survives restarts under the same password as well. */
  lemma {:induction false} SessionSurvives(sts: seq<St>, ops: seq<Op>, ts: seq<Time>, i: nat, j: nat, u: Time)
    requires History(sts, ops, ts) && i < j < |sts| && ops[i].Login? && forall k | 0 <= k < j :: Clean(ops[k])
    requires AllSpare(ops, i + 1, j, ops[i].hash, sts[i].fp) && ts[j] <= u
    ensures sts[j].fp == sts[i].fp
    ensures Answer(sts[j], u, ops[i].hash) == Granted(ops[i], u)
    decreases j
  {
    if j == i + 1 {
      assert Clean(ops[i]);
      LoginGrants(sts, ops, ts, i, u);
    } else {
      SurvivesOn(sts, ops, ts, i, j - 1, u);
      SessionSurvives(sts, ops, ts, i, j - 1, u);
    }
  }

  lemma SurvivesOn(sts: seq<St>, ops: seq<Op>, ts: seq<Time>, i: nat, k: nat, u: Time)
    requires History(sts, ops, ts) && i < k < |ops| && ops[i].Login? && ts[k + 1] <= u
    requires (forall m | 0 <= m < k :: Clean(ops[m])) && AllSpare(ops, i + 1, k + 1, ops[i].hash, sts[i].fp)
    ensures ts[k] <= u && (sts[k].fp == sts[i].fp ==>
      sts[k + 1].fp == sts[i].fp && Answer(sts[k + 1], u, ops[i].hash) == Answer(sts[k], u, ops[i].hash))
  {
    assert Spares(ops[k], ops[i].hash, sts[i].fp);
    CleanSync(sts, ops, ts, k);
    DuringLater(ops[k], ts[k], ts[k + 1], u);
    if sts[k].fp == sts[i].fp {
      SparedAnswer(sts[k], ops[k], ops[i].hash, ts[k], u);
    }
  }

  lemma SparedAnswer(st: St, op: Op, hash: Hash, t: Time, u: Time)
    requires InSync(st, t) && Possible(st, op) && During(op, t, u) && Spares(op, hash, st.fp)
    ensures Answer(Apply(st, op), u, hash) == Answer(st, u, hash) && Apply(st, op).fp == st.fp
  {
    if op.Restart? {
      ReloadIsSame(Admitted(st, op.fp), op.from, op.to, op.reloaded);
    } else {
      OthersUnchanged(st, op, hash, t, u);
    }
  }
}
