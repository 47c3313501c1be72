/**
  The session store (internal/app/auth.go): a capped, expiring map, persisted after each change.
  Whether a write to sessions.json succeeds is an input (`w`); AtomicFile shows that a failed
  write leaves the old file.
 */
module SessionStore {
  import opened Model
  import opened TokenMap

  const SESSION_TTL: Time := 30 * 24 * 3600 * 1_000_000_000
  const MAX_SESSIONS := 20

  type Csrf = string
  type Session = Entry<Csrf>
  type Sessions = Book<Csrf>

  function NewSession(hash: Hash, csrf: Csrf, now: Time): Session {
    Entry(hash, now, now + SESSION_TTL, csrf)
  }

  // ---- what the operations do, as functions on the map and the file ----

  datatype Saved = Saved(fp: string, sessions: Sessions)

  /** The store's map, and what the file at its path stands for. */
  datatype St = St(fp: string, sessions: Sessions, file: Option<Saved>)

  ghost function Persisted(st: St, w: bool): St {
    if w then st.(file := Some(Saved(st.fp, st.sessions))) else st
  }

  ghost function Pruned(st: St, now: Time, w: bool): St {
    if Live(st.sessions, now) == st.sessions then st else Persisted(st.(sessions := Live(st.sessions, now)), w)
  }

  /** The new entry stays only if it could be written. */
  ghost function Inserted(st: St, sess: Session, w: bool): St {
    if w then Persisted(st.(sessions := st.sessions[sess.hash := sess]), true)
    else st.(sessions := st.sessions - {sess.hash})
  }

  /** Create with hash and csrf drawn; w1 and w2 answer the pruning and the final write. */
  ghost function Created(st: St, now: Time, hash: Hash, csrf: Csrf, victim: Option<Hash>, w1: bool, w2: bool): St {
    var pruned := Pruned(st, now, w1);
    Inserted(pruned.(sessions := Evict(pruned.sessions, victim)), NewSession(hash, csrf, now), w2)
  }

  ghost predicate CreateVictim(st: St, now: Time, victim: Option<Hash>) {
    Victim(Live(st.sessions, now), Live(st.sessions, now).Keys, MAX_SESSIONS, victim)
  }

  ghost function Answer(st: St, now: Time, hash: Hash): Option<Session> {
    if hash in st.sessions && st.sessions[hash].expiresAt > now then Some(st.sessions[hash]) else None
  }

  ghost function Dropped(st: St, hash: Hash, w: bool): St {
    if hash in st.sessions then Persisted(st.(sessions := st.sessions - {hash}), w) else st
  }

  ghost function LookedUp(st: St, now: Time, hash: Hash, w: bool): St {
    if Answer(st, now, hash).Some? then st else Dropped(st, hash, w)
  }

  ghost function Cleared(st: St, w: bool): St {
    Persisted(st.(sessions := map[]), w)
  }

  // ---- the store itself ----

  datatype File = File(fp: string, sessions: seq<Session>)

  /** What reading sessions.json yields. */
  datatype OnDisk = NoFile | Unreadable | Malformed | Written(file: File)

  class Disk {
    var content: OnDisk

    constructor (content: OnDisk)
      ensures this.content == content
    {
      this.content := content;
    }
  }

  class Store {
    const fp: string
    const disk: Disk
    var sessions: Sessions

    constructor (disk: Disk, fp: string)
      ensures this.disk == disk && this.fp == fp && sessions == map[]
    {
      this.disk, this.fp, sessions := disk, fp, map[];
    }

    /** Entries are filed under their own hash; a file in place is one this program wrote. */
    ghost predicate Valid()
      reads this, disk
    {
      && Keyed(sessions)
      && (disk.content.Written? ==> Tidy(disk.content.file.sessions) && Keyed(MapOf(disk.content.file.sessions)))
    }

    ghost function Abs(): St
      reads this, disk
    {
      St(fp, sessions,
         if disk.content.Written? then Some(Saved(disk.content.file.fp, MapOf(disk.content.file.sessions))) else None)
    }

    /** persistLocked: lists the map in some order and replaces the file. */
    method PersistLocked(w: bool) returns (ok: bool)
      requires Valid()
      modifies disk
      ensures Valid() && ok == w && Abs() == Persisted(old(Abs()), w)
    {
      var list: seq<Session> := [];
      var left := sessions.Keys;
      while left != {}
        invariant left <= sessions.Keys && Tidy(list)
        invariant MapOf(list) == map h | h in sessions && h !in left :: sessions[h]
        invariant forall i | 0 <= i < |list| :: list[i].hash in sessions && list[i].hash !in left
        decreases left
      {
        var h :| h in left;
        left := left - {h};
        assert (list + [sessions[h]])[..|list|] == list;
        list := list + [sessions[h]];
      }
      assert MapOf(list) == sessions;
      if w {
        disk.content := Written(File(fp, list));
      }
      ok := w;
    }

    /** pruneLocked */
    method PruneLocked(now: Time, w: bool)
      requires Valid()
      modifies this, disk
      ensures Valid() && Abs() == Pruned(old(Abs()), now, w)
    {
      ghost var m := sessions;
      var expired := false;
      var left := sessions.Keys;
      while left != {}
        invariant left <= m.Keys && Keyed(sessions) && disk.content == old(disk.content)
        invariant sessions == map h | h in m && (h in left || m[h].expiresAt > now) :: m[h]
        invariant expired <==> sessions != m
        decreases left
      {
        var h :| h in left;
        if sessions[h].expiresAt <= now {
          assert h in m && h !in sessions - {h};
          sessions := sessions - {h};
          expired := true;
        }
        left := left - {h};
      }
      assert sessions == Live(m, now);
      if expired {
        var _ := PersistLocked(w);
      }
    }

    /** Create's eviction: the search for the oldest session, when the store is full. */
    method MakeRoom() returns (ghost victim: Option<Hash>)
      requires Valid()
      modifies this`sessions
      ensures Valid() && Victim(old(sessions), old(sessions).Keys, MAX_SESSIONS, victim)
      ensures Abs() == old(Abs()).(sessions := Evict(old(sessions), victim))
    {
      if |sessions| < MAX_SESSIONS {
        return None;
      }
      var oldestKey, oldest := "", 0;
      var left := sessions.Keys;
      while left != {}
        invariant left <= sessions.Keys
        invariant oldestKey == "" <==> left == sessions.Keys
        invariant oldestKey != "" ==> oldestKey in sessions && sessions[oldestKey].createdAt == oldest
        invariant forall h | h in sessions && h !in left :: oldest <= sessions[h].createdAt
        decreases left
      {
        var h :| h in left;
        if oldestKey == "" || sessions[h].createdAt < oldest {
          oldestKey, oldest := h, sessions[h].createdAt;
        }
        left := left - {h};
      }
      victim := Some(oldestKey);
      sessions := sessions - {oldestKey};
    }

    method Insert(sess: Session, w: bool) returns (ok: bool)
      requires Valid() && sess.hash != ""
      modifies this`sessions, disk
      ensures Valid() && ok == w && Abs() == Inserted(old(Abs()), sess, w)
    {
      ghost var m := sessions;
      sessions := sessions[sess.hash := sess];
      ok := PersistLocked(w);
      if !ok {
        sessions := sessions - {sess.hash};
        assert sessions == m - {sess.hash};
      }
    }

    /** Create for drawn tokens; None stands for the error of a failed write. */
    method Create(now: Time, token: string, csrf: Csrf, w1: bool, w2: bool)
      returns (expires: Option<Time>, ghost victim: Option<Hash>)
      requires Valid()
      modifies this, disk
      ensures Valid() && CreateVictim(old(Abs()), now, victim)
      ensures Abs() == Created(old(Abs()), now, HashToken(token), csrf, victim, w1, w2)
      ensures expires == if w2 then Some(now + SESSION_TTL) else None
    {
      PruneLocked(now, w1);
      victim := MakeRoom();
      var sess := NewSession(HashToken(token), csrf, now);
      var ok := Insert(sess, w2);
      expires := if ok then Some(sess.expiresAt) else None;
    }

    method Lookup(now: Time, token: string, w: bool) returns (r: Option<Session>)
      requires Valid()
      modifies this, disk
      ensures Valid()
      ensures if token == "" then r.None? && Abs() == old(Abs())
              else r == Answer(old(Abs()), now, HashToken(token))
                   && Abs() == LookedUp(old(Abs()), now, HashToken(token), w)
    {
      if token == "" {
        return None;
      }
      var h := HashToken(token);
      if h !in sessions {
        return None;
      }
      var sess := sessions[h];
      if sess.expiresAt <= now {
        sessions := sessions - {sess.hash};
        var _ := PersistLocked(w);
        return None;
      }
      r := Some(sess);
    }

    method Revoke(token: string, w: bool)
      requires Valid()
      modifies this, disk
      ensures Valid()
      ensures Abs() == if token == "" then old(Abs()) else Dropped(old(Abs()), HashToken(token), w)
    {
      if token == "" || HashToken(token) !in sessions {
        return;
      }
      sessions := sessions - {HashToken(token)};
      var _ := PersistLocked(w);
    }

    method RevokeAll(w: bool)
      requires Valid()
      modifies this, disk
      ensures Valid() && Abs() == Cleared(old(Abs()), w)
    {
      sessions := map[];
      var _ := PersistLocked(w);
    }

    /** Load, the clock read once for each entry; an unreadable file changes nothing. */
    method Load(clock: seq<Time>) returns (ok: bool)
      requires disk.content.Written? ==> |clock| == |disk.content.file.sessions|
      modifies this`sessions
      ensures ok == !(disk.content.Unreadable? || disk.content.Malformed?)
      ensures sessions == if !disk.content.Written? then old(sessions)
                          else if disk.content.file.fp != fp then map[]
                          else Loaded(disk.content.file.sessions, clock, HasCsrf)
    {
      if !disk.content.Written? {
        return disk.content.NoFile?;
      }
      var file := disk.content.file;
      var kept: Sessions := map[];
      if file.fp == fp {
        for i := 0 to |file.sessions|
          invariant kept == Loaded(file.sessions[..i], clock[..i], HasCsrf)
        {
          assert file.sessions[..i + 1][..i] == file.sessions[..i] && clock[..i + 1][..i] == clock[..i];
          var sess := file.sessions[i];
          if sess.expiresAt > clock[i] && sess.hash != "" && sess.body != "" {
            kept := kept[sess.hash := sess];
          }
        }
        assert file.sessions[..|file.sessions|] == file.sessions && clock[..|file.sessions|] == clock;
      }
      sessions := kept;
      ok := true;
    }
  }

  predicate HasCsrf(sess: Session) {
    sess.body != ""
  }
}
