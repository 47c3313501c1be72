/**
  Maps from token hashes to entries that expire, as the session and link stores keep them and
  write them to disk. SHA-256 is stood for by an injective function, random tokens by inputs.
 */
module TokenMap {
  import opened Model

  type Hash = string

  function HashToken(token: string): (h: Hash)
    ensures h != ""
  {
    "#" + token
  }

  datatype Entry<T> = Entry(hash: Hash, createdAt: Time, expiresAt: Time, body: T)

  type Book<T> = map<Hash, Entry<T>>

  ghost predicate Keyed<T>(m: Book<T>) {
    forall h | h in m :: m[h].hash == h != ""
  }

  /** The entries that have not expired. */
  ghost function Live<T>(m: Book<T>, now: Time): Book<T> {
    map h | h in m && m[h].expiresAt > now :: m[h]
  }

  // ---- files ----

  /** The map a list of entries stands for. */
  ghost function MapOf<T>(list: seq<Entry<T>>): Book<T> {
    if list == [] then map[]
    else
      var n := |list| - 1;
      MapOf(list[..n])[list[n].hash := list[n]]
  }

  ghost predicate Tidy<T>(list: seq<Entry<T>>) {
    forall i, j | 0 <= i < j < |list| :: list[i].hash != list[j].hash
  }

  /** What Load keeps of the first entries; entry i is looked at when the clock shows clock[i]. */
  ghost function Loaded<T>(list: seq<Entry<T>>, clock: seq<Time>, ok: Entry<T> -> bool): Book<T>
    requires |list| == |clock|
  {
    if list == [] then map[]
    else
      var n := |list| - 1;
      var before := Loaded(list[..n], clock[..n], ok);
      if list[n].expiresAt > clock[n] && list[n].hash != "" && ok(list[n])
      then before[list[n].hash := list[n]] else before
  }

  lemma {:induction false} MapOfMembers<T>(list: seq<Entry<T>>, h: Hash)
    requires Tidy(list)
    ensures h in MapOf(list) <==> exists i :: 0 <= i < |list| && list[i].hash == h
    ensures forall i | 0 <= i < |list| && list[i].hash == h :: h in MapOf(list) && MapOf(list)[h] == list[i]
  {
    if list == [] {
    } else {
      var n := |list| - 1;
      MapOfMembers(list[..n], h);
      assert forall i | 0 <= i < n :: list[..n][i] == list[i];
      if i :| 0 <= i < n && list[i].hash == h {
        assert list[..n][i].hash == h;
      }
    }
  }

  /** Reloading a file written from a map: entries are kept or dropped by their expiry alone. */
  ghost predicate Reloads<T>(m: Book<T>, from: Time, to: Time, m': Book<T>) {
    && (forall h | h in m' :: h in m && m'[h] == m[h] && m[h].expiresAt > from)
    && (forall h | h in m && m[h].expiresAt > to :: h in m')
  }

  lemma {:induction false} LoadedReloads<T>(list: seq<Entry<T>>, clock: seq<Time>, ok: Entry<T> -> bool, from: Time,
      to: Time)
    requires Tidy(list) && |list| == |clock|
    requires forall i | 0 <= i < |list| :: from <= clock[i] <= to && list[i].hash != "" && ok(list[i])
    ensures Reloads(MapOf(list), from, to, Loaded(list, clock, ok))
  {
    if list == [] {
    } else {
      var n := |list| - 1;
      LoadedReloads(list[..n], clock[..n], ok, from, to);
      MapOfMembers(list[..n], list[n].hash);
    }
  }

  // ---- equality for lookups ----

  /** Alike for every lookup from time t on. */
  ghost predicate SameFrom<T>(m: Book<T>, m': Book<T>, t: Time) {
    && (forall h | h in m && m[h].expiresAt > t :: h in m' && m'[h] == m[h])
    && (forall h | h in m' && m'[h].expiresAt > t :: h in m && m'[h] == m[h])
  }

  lemma SameFromIsLive<T>(m: Book<T>, m': Book<T>, t: Time)
    ensures SameFrom(m, m', t) <==> forall u | u >= t :: Live(m, u) == Live(m', u)
  {
    if SameFrom(m, m', t) {
      forall u | u >= t ensures Live(m, u) == Live(m', u) {
        assert forall h :: h in Live(m, u) <==> h in Live(m', u);
      }
    }
    if forall u | u >= t :: Live(m, u) == Live(m', u) {
      assert Live(m, t) == Live(m', t);
      forall h | h in m && m[h].expiresAt > t ensures h in m' && m'[h] == m[h] {
        assert h in Live(m, t);
      }
      forall h | h in m' && m'[h].expiresAt > t ensures h in m && m'[h] == m[h] {
        assert h in Live(m', t);
      }
    }
  }

  lemma ReloadIsSame<T>(m: Book<T>, from: Time, to: Time, m': Book<T>)
    requires Reloads(m, from, to, m')
    ensures SameFrom(m, m', to)
  {
  }

  // ---- eviction ----

  /** At the cap, one oldest entry of the scope has to go. */
  ghost predicate Victim<T>(m: Book<T>, scope: set<Hash>, cap: nat, victim: Option<Hash>) {
    && scope <= m.Keys
    && match victim
       case None => |scope| < cap
       case Some(v) => |scope| >= cap && v in scope && forall h | h in scope :: m[v].createdAt <= m[h].createdAt
  }

  ghost function Evict<T>(m: Book<T>, victim: Option<Hash>): Book<T> {
    if victim.None? then m else m - {victim.value}
  }
}
