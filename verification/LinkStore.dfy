/**
  The share-link store (internal/app/links.go): expiring links, at most eight for each video,
  persisted after each change. `w` says whether a write to links.json succeeds.
 */
module LinkStore {
  import opened Model
  import opened TokenMap

  const LINK_TTL: Time := 24 * 3600 * 1_000_000_000
  const MAX_LINKS := 8

  /** The run of the video a link was issued for: its job's creation time. */
  datatype Target = Target(video: Id, jobCreatedAt: Time)

  type Link = Entry<Target>
  type Links = Book<Target>

  function NewLink(hash: Hash, video: Id, jobCreatedAt: Time, now: Time): Link {
    Entry(hash, now, now + LINK_TTL, Target(video, jobCreatedAt))
  }

  ghost function Scope(m: Links, video: Id): set<Hash> {
    set h | h in m && m[h].body.video == video
  }

  // ---- what the operations do, as functions on the map and the file ----

  /** The store's map, and what the file at its path stands for. */
  datatype St = St(links: Links, file: Option<Links>)

  ghost function Persisted(st: St, w: bool): St {
    if w then st.(file := Some(st.links)) else st
  }

  ghost function Pruned(st: St, now: Time, w: bool): St {
    if Live(st.links, now) == st.links then st else Persisted(st.(links := Live(st.links, now)), w)
  }

  ghost function Inserted(st: St, link: Link, w: bool): St {
    if w then Persisted(st.(links := st.links[link.hash := link]), true)
    else st.(links := st.links - {link.hash})
  }

  ghost function Issued(st: St, now: Time, hash: Hash, video: Id, jobAt: Time, victim: Option<Hash>, w1: bool,
      w2: bool): St {
    var pruned := Pruned(st, now, w1);
    Inserted(pruned.(links := Evict(pruned.links, victim)), NewLink(hash, video, jobAt, now), w2)
  }

  ghost predicate IssueVictim(st: St, now: Time, video: Id, victim: Option<Hash>) {
    Victim(Live(st.links, now), Scope(Live(st.links, now), video), MAX_LINKS, victim)
  }

  ghost function Answer(st: St, now: Time, hash: Hash): Option<Target> {
    if hash in st.links && st.links[hash].expiresAt > now then Some(st.links[hash].body) else None
  }

  ghost function Revoked(st: St, video: Id, w: bool): St {
    if Scope(st.links, video) == {} then st
    else Persisted(st.(links := st.links - Scope(st.links, video)), w)
  }

  // ---- the store itself ----

  datatype OnDisk = NoFile | Unreadable | Malformed | Written(links: seq<Link>)

  class Disk {
    var content: OnDisk

    constructor (content: OnDisk)
      ensures this.content == content
    {
      this.content := content;
    }
  }

  predicate HasVideo(link: Link) {
    link.body.video != ""
  }

  class Store {
    const disk: Disk
    var links: Links

    constructor (disk: Disk)
      ensures this.disk == disk && links == map[]
    {
      this.disk, links := disk, map[];
    }

    /** Entries are filed under their own hash; a file in place is one this program wrote. */
    ghost predicate Valid()
      reads this, disk
    {
      && Keyed(links)
      && (disk.content.Written? ==> Tidy(disk.content.links) && Keyed(MapOf(disk.content.links)))
    }

    ghost function Abs(): St
      reads this, disk
    {
      St(links, if disk.content.Written? then Some(MapOf(disk.content.links)) else None)
    }

    /** persistLocked: lists the map in some order and replaces the file. */
    method PersistLocked(w: bool) returns (ok: bool)
      requires Valid()
      modifies disk
      ensures Valid() && ok == w && Abs() == Persisted(old(Abs()), w)
    {
      var list: seq<Link> := [];
      var left := links.Keys;
      while left != {}
        invariant left <= links.Keys && Tidy(list)
        invariant MapOf(list) == map h | h in links && h !in left :: links[h]
        invariant forall i | 0 <= i < |list| :: list[i].hash in links && list[i].hash !in left
        decreases left
      {
        var h :| h in left;
        left := left - {h};
        assert (list + [links[h]])[..|list|] == list;
        list := list + [links[h]];
      }
      assert MapOf(list) == links;
      if w {
        disk.content := Written(list);
      }
      ok := w;
    }

    /** pruneLocked */
    method Prune(now: Time, w: bool)
      requires Valid()
      modifies this, disk
      ensures Valid() && Abs() == Pruned(old(Abs()), now, w)
    {
      ghost var m := links;
      var expired := false;
      var left := links.Keys;
      while left != {}
        invariant left <= m.Keys && Keyed(links) && disk.content == old(disk.content)
        invariant links == map h | h in m && (h in left || m[h].expiresAt > now) :: m[h]
        invariant expired <==> links != m
        decreases left
      {
        var h :| h in left;
        if links[h].expiresAt <= now {
          assert h in m && h !in links - {h};
          links := links - {h};
          expired := true;
        }
        left := left - {h};
      }
      assert links == Live(m, now);
      if expired {
        var _ := PersistLocked(w);
      }
    }

    /** Issue's list of the video's own links. */
    method LinksOf(video: Id) returns (mine: seq<Link>)
      requires Valid()
      ensures |mine| == |Scope(links, video)|
      ensures forall i | 0 <= i < |mine| :: mine[i].hash in Scope(links, video) && links[mine[i].hash] == mine[i]
      ensures forall h | h in Scope(links, video) :: links[h] in mine
    {
      mine := [];
      ghost var found: set<Hash> := {};
      var left := links.Keys;
      while left != {}
        invariant left <= links.Keys && |mine| == |found|
        invariant found == set h | h in links && h !in left && links[h].body.video == video
        invariant forall i | 0 <= i < |mine| :: mine[i].hash in found && links[mine[i].hash] == mine[i]
        invariant forall h | h in found :: links[h] in mine
        decreases left
      {
        var h :| h in left;
        left := left - {h};
        if links[h].body.video == video {
          mine := mine + [links[h]];
          found := found + {h};
        }
      }
      assert found == Scope(links, video);
    }

    /** Issue's eviction: the oldest of the video's links goes when there are eight. */
    method MakeRoom(video: Id) returns (ghost victim: Option<Hash>)
      requires Valid()
      modifies this`links
      ensures Valid() && Victim(old(links), Scope(old(links), video), MAX_LINKS, victim)
      ensures Abs() == old(Abs()).(links := Evict(old(links), victim))
    {
      var mine := LinksOf(video);
      if |mine| < MAX_LINKS {
        return None;
      }
      var oldestKey, oldest := "", 0;
      for i := 0 to |mine|
        invariant oldestKey == "" <==> i == 0
        invariant oldestKey != "" ==> oldestKey in Scope(links, video) && links[oldestKey].createdAt == oldest
        invariant forall k | 0 <= k < i :: oldest <= mine[k].createdAt
      {
        if oldestKey == "" || mine[i].createdAt < oldest {
          oldestKey, oldest := mine[i].hash, mine[i].createdAt;
        }
      }
      victim := Some(oldestKey);
      links := links - {oldestKey};
    }

    method Insert(link: Link, w: bool) returns (ok: bool)
      requires Valid() && link.hash != ""
      modifies this`links, disk
      ensures Valid() && ok == w && Abs() == Inserted(old(Abs()), link, w)
    {
      ghost var m := links;
      links := links[link.hash := link];
      ok := PersistLocked(w);
      if !ok {
        links := links - {link.hash};
        assert links == m - {link.hash};
      }
    }

    /** Issue for a drawn token; None stands for the error of a failed write. */
    method Issue(now: Time, token: string, video: Id, jobAt: Time, w1: bool, w2: bool)
      returns (expires: Option<Time>, ghost victim: Option<Hash>)
      requires Valid()
      modifies this, disk
      ensures Valid() && IssueVictim(old(Abs()), now, video, victim)
      ensures Abs() == Issued(old(Abs()), now, HashToken(token), video, jobAt, victim, w1, w2)
      ensures expires == if w2 then Some(now + LINK_TTL) else None
    {
      Prune(now, w1);
      victim := MakeRoom(video);
      var link := NewLink(HashToken(token), video, jobAt, now);
      var ok := Insert(link, w2);
      expires := if ok then Some(link.expiresAt) else None;
    }

    method Lookup(now: Time, token: string) returns (r: Option<Target>)
      ensures r == if token == "" then None else Answer(Abs(), now, HashToken(token))
    {
      if token == "" {
        return None;
      }
      var h := HashToken(token);
      if h !in links || links[h].expiresAt <= now {
        return None;
      }
      r := Some(links[h].body);
    }

    /** Revoke: drops every link of a video. */
    method Revoke(video: Id, w: bool)
      requires Valid()
      modifies this, disk
      ensures Valid() && Abs() == Revoked(old(Abs()), video, w)
    {
      ghost var m := links;
      var changed := false;
      var left := links.Keys;
      while left != {}
        invariant left <= m.Keys && Keyed(links) && disk.content == old(disk.content)
        invariant links == map h | h in m && (h in left || m[h].body.video != video) :: m[h]
        invariant changed <==> exists h :: h in m && h !in left && m[h].body.video == video
        decreases left
      {
        var h :| h in left;
        if links[h].body.video == video {
          links := links - {h};
          changed := true;
        }
        left := left - {h};
      }
      assert links == m - Scope(m, video);
      assert changed <==> Scope(m, video) != {};
      if changed {
        var _ := PersistLocked(w);
      } else {
        assert links == m;
      }
    }

    /** Load, the clock read once for each entry; an unreadable file changes nothing. */
    method Load(clock: seq<Time>) returns (ok: bool)
      requires disk.content.Written? ==> |clock| == |disk.content.links|
      modifies this`links
      ensures ok == !(disk.content.Unreadable? || disk.content.Malformed?)
      ensures links == if disk.content.Written? then Loaded(disk.content.links, clock, HasVideo) else old(links)
    {
      if !disk.content.Written? {
        return disk.content.NoFile?;
      }
      var entries, kept: Links := disk.content.links, map[];
      for i := 0 to |entries|
        invariant kept == Loaded(entries[..i], clock[..i], HasVideo)
      {
        assert entries[..i + 1][..i] == entries[..i] && clock[..i + 1][..i] == clock[..i];
        var link := entries[i];
        if link.expiresAt > clock[i] && link.hash != "" && link.body.video != "" {
          kept := kept[link.hash := link];
        }
      }
      assert entries[..|entries|] == entries && clock[..|entries|] == clock;
      links := kept;
      ok := true;
    }
  }
}
