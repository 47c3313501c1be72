/**
  The sliding-window rate limiter (internal/app/auth.go) and the Retry-After header it feeds
  (internal/app/http.go). Times and durations are integers counting nanoseconds; the zero time,
  which the code uses to mean "none yet", is 0.
 */
module RateLimiter {

  type Key = string
  type Time = int
  const SECOND := 1_000_000_000

  datatype Rate = Rate(at: Time, bad: bool)
  datatype Policy = Policy(window: int, maxFailures: int, maxAttempts: int)

  /** Attempt's answer. */
  datatype Verdict = Verdict(allowed: bool, verified: bool, wait: int)

  // ---- one key: what the code computes from a list ----

  /** The attempts of the list inside the window that ends now, in order. */
  function Recent(list: seq<Rate>, now: Time, window: int): seq<Rate> {
    if list == [] then []
    else
      var n := |list| - 1;
      var before := Recent(list[..n], now, window);
      if now - list[n].at < window then before + [list[n]] else before
  }

  function Failures(list: seq<Rate>): (n: nat)
    ensures n <= |list|
  {
    if list == [] then 0 else Failures(list[..|list| - 1]) + if list[|list| - 1].bad then 1 else 0
  }

  /** The running minimum of the code, which takes the zero time for "none yet". */
  function Oldest(list: seq<Rate>, badOnly: bool): Time {
    if list == [] then 0
    else
      var a, o := list[|list| - 1], Oldest(list[..|list| - 1], badOnly);
      if badOnly && !a.bad then o else if o == 0 || a.at < o then a.at else o
  }

  function WaitFrom(p: Policy, oldest: Time, now: Time): int {
    var wait := p.window - (now - oldest);
    if wait > 0 then wait else SECOND
  }

  function Check(p: Policy, list: seq<Rate>, now: Time): (bool, int) {
    if Failures(list) >= p.maxFailures then (false, WaitFrom(p, Oldest(list, true), now))
    else if |list| >= p.maxAttempts then (false, WaitFrom(p, Oldest(list, false), now))
    else (true, 0)
  }

  /** One attempt against a list; `good` is what verify would answer. */
  function AttemptOn(p: Policy, list: seq<Rate>, now: Time, good: bool, countSuccess: bool): (Verdict, seq<Rate>) {
    var kept := Recent(list, now, p.window);
    var (allowed, wait) := Check(p, kept, now);
    if !allowed then (Verdict(false, false, wait), kept)
    else if good && !countSuccess then (Verdict(true, true, 0), kept)
    else (Verdict(true, good, 0), Recent(kept + [Rate(now, !good)], now, p.window))
  }

  // ---- the limiter ----

  class Limiter {
    const window: int
    const maxFailures: int
    const maxAttempts: int
    var attempts: map<Key, seq<Rate>>

    constructor (window: int, maxFailures: int, maxAttempts: int)
      ensures Rules() == Policy(window, maxFailures, maxAttempts) && attempts == map[]
    {
      this.window, this.maxFailures, this.maxAttempts := window, maxFailures, maxAttempts;
      attempts := map[];
    }

    function Rules(): Policy {
      Policy(window, maxFailures, maxAttempts)
    }

    function List(key: Key): seq<Rate>
      reads this
    {
      if key in attempts then attempts[key] else []
    }

    /** pruneKeyLocked */
    method PruneKey(key: Key, now: Time)
      modifies this
      ensures attempts == old(attempts)[key := Recent(old(List(key)), now, window)]
    {
      var list, kept := List(key), [];
      for i := 0 to |list|
        invariant kept == Recent(list[..i], now, window)
      {
        assert list[..i + 1][..i] == list[..i];
        if now - list[i].at < window {
          kept := kept + [list[i]];
        }
      }
      assert list[..|list|] == list;
      attempts := attempts[key := kept];
    }

    /** checkLocked */
    method CheckKey(key: Key, now: Time) returns (allowed: bool, wait: int)
      ensures (allowed, wait) == Check(Rules(), List(key), now)
    {
      var list := List(key);
      var failures, tries := 0, 0;
      var oldestBad, oldestAny := 0, 0;
      for i := 0 to |list|
        invariant tries == i && failures == Failures(list[..i])
        invariant oldestAny == Oldest(list[..i], false) && oldestBad == Oldest(list[..i], true)
      {
        assert list[..i + 1][..i] == list[..i];
        var a := list[i];
        tries := tries + 1;
        if oldestAny == 0 || a.at < oldestAny {
          oldestAny := a.at;
        }
        if a.bad {
          failures := failures + 1;
          if oldestBad == 0 || a.at < oldestBad {
            oldestBad := a.at;
          }
        }
      }
      assert list[..|list|] == list;
      if failures >= maxFailures {
        wait := window - (now - oldestBad);
        return false, if wait > 0 then wait else SECOND;
      }
      if tries >= maxAttempts {
        wait := window - (now - oldestAny);
        return false, if wait > 0 then wait else SECOND;
      }
      return true, 0;
    }

    /** recordLocked */
    method Record(key: Key, now: Time, bad: bool)
      modifies this
      ensures attempts == old(attempts)[key := Recent(old(List(key)) + [Rate(now, bad)], now, window)]
    {
      attempts := attempts[key := List(key) + [Rate(now, bad)]];
      PruneKey(key, now);
    }

    method Attempt(key: Key, now: Time, good: bool, countSuccess: bool) returns (v: Verdict)
      modifies this
      ensures (v, List(key)) == AttemptOn(Rules(), old(List(key)), now, good, countSuccess)
      ensures attempts == old(attempts)[key := List(key)]
    {
      PruneKey(key, now);
      var allowed, wait := CheckKey(key, now);
      if !allowed {
        return Verdict(false, false, wait);
      }
      if good {
        if countSuccess {
          Record(key, now, false);
        }
        return Verdict(true, true, 0);
      }
      Record(key, now, true);
      return Verdict(true, false, 0);
    }
  }

  // ---- runs: the limiter against a log that is never pruned ----

  datatype Event = Event(key: Key, now: Time, good: bool, countSuccess: bool)

  /** The limiter's lists after the events, as Attempt changes them. */
  function Lists(p: Policy, es: seq<Event>): map<Key, seq<Rate>> {
    if es == [] then map[]
    else
      var e, lists := es[|es| - 1], Lists(p, es[..|es| - 1]);
      lists[e.key := AttemptOn(p, ListIn(lists, e.key), e.now, e.good, e.countSuccess).1]
  }

  function ListIn(lists: map<Key, seq<Rate>>, key: Key): seq<Rate> {
    if key in lists then lists[key] else []
  }

  /** What Attempt answers after these events. */
  function VerdictAfter(p: Policy, es: seq<Event>, e: Event): Verdict {
    AttemptOn(p, ListIn(Lists(p, es), e.key), e.now, e.good, e.countSuccess).0
  }

  /** The rule the limiter implements, on the key's complete history. */
  function Judge(p: Policy, log: seq<Rate>, now: Time): (bool, int) {
    Check(p, Recent(log, now, p.window), now)
  }

  /** Everything ever recorded for the key: allowed failures, and counted successes. */
  function Log(p: Policy, es: seq<Event>, key: Key): seq<Rate> {
    if es == [] then []
    else
      var e, log := es[|es| - 1], Log(p, es[..|es| - 1], key);
      if e.key == key && Judge(p, log, e.now).0 && (e.countSuccess || !e.good)
      then log + [Rate(e.now, !e.good)] else log
  }

  /** When the key was last attempted. */
  function LastSeen(es: seq<Event>, key: Key): Time {
    if es == [] then 0
    else if es[|es| - 1].key == key then es[|es| - 1].now
    else LastSeen(es[..|es| - 1], key)
  }

  /** The clock runs after the zero time and never goes back. */
  ghost predicate Clocked(es: seq<Event>) {
    (forall i | 0 <= i < |es| :: es[i].now > 0) && (forall i, j | 0 <= i < j < |es| :: es[i].now <= es[j].now)
  }

  lemma RecentOfAppend(list: seq<Rate>, a: Rate, now: Time, window: int)
    ensures Recent(list + [a], now, window) ==
      if now - a.at < window then Recent(list, now, window) + [a] else Recent(list, now, window)
  {
    assert (list + [a])[..|list|] == list;
  }

  lemma FailuresOfAppend(list: seq<Rate>, a: Rate)
    ensures Failures(list + [a]) == Failures(list) + if a.bad then 1 else 0
  {
    assert (list + [a])[..|list|] == list;
  }

  lemma {:induction false} RecentTwice(list: seq<Rate>, t: Time, now: Time, window: int)
    requires t <= now
    ensures Recent(Recent(list, t, window), now, window) == Recent(list, now, window)
  {
    if list == [] {
    } else {
      var n := |list| - 1;
      RecentTwice(list[..n], t, now, window);
      RecentOfAppend(Recent(list[..n], t, window), list[n], now, window);
    }
  }

  lemma {:induction false} SeenBefore(es: seq<Event>, key: Key, now: Time)
    requires Clocked(es) && now >= 0 && forall i | 0 <= i < |es| :: es[i].now <= now
    ensures LastSeen(es, key) <= now
  {
    if es == [] {
    } else {
      SeenBefore(es[..|es| - 1], key, now);
    }
  }

  /** The pruned list is the full log cut to the window of the key's last attempt. */
  lemma {:induction false} ListIsWindow(p: Policy, es: seq<Event>, key: Key)
    requires Clocked(es)
    ensures ListIn(Lists(p, es), key) == Recent(Log(p, es, key), LastSeen(es, key), p.window)
  {
    if es == [] {
    } else {
      var n := |es| - 1;
      var e, before := es[n], es[..n];
      ListIsWindow(p, before, key);
      if e.key == key {
        var log := Log(p, before, key);
        SeenBefore(before, key, e.now);
        RecentTwice(log, LastSeen(before, key), e.now, p.window);
        var kept := Recent(log, e.now, p.window);
        RecentOfAppend(kept, Rate(e.now, !e.good), e.now, p.window);
        RecentOfAppend(log, Rate(e.now, !e.good), e.now, p.window);
        RecentTwice(log, e.now, e.now, p.window);
      }
    }
  }

  /** Every attempt is judged exactly as the unpruned log would judge it. */
  lemma SameVerdict(p: Policy, es: seq<Event>, e: Event)
    requires Clocked(es + [e])
    ensures var v := VerdictAfter(p, es, e);
      && (v.allowed, v.wait) == Judge(p, Log(p, es, e.key), e.now)
      && v.verified == (v.allowed && e.good)
  {
    assert forall i | 0 <= i < |es| :: es[i] == (es + [e])[i];
    assert (es + [e])[|es|] == e;
    ListIsWindow(p, es, e.key);
    SeenBefore(es, e.key, e.now);
    RecentTwice(Log(p, es, e.key), LastSeen(es, e.key), e.now, p.window);
  }

  // ---- the bound on every window ----

  /** How many recorded attempts (or failures) fall in the half-open interval. */
  function Within(log: seq<Rate>, from: Time, to: Time, badOnly: bool): nat {
    if log == [] then 0
    else
      var a := log[|log| - 1];
      Within(log[..|log| - 1], from, to, badOnly) + if from <= a.at < to && (badOnly ==> a.bad) then 1 else 0
  }

  lemma {:induction false} WithinRecent(log: seq<Rate>, from: Time, to: Time, now: Time, window: int)
    requires now - window < from
    ensures Within(log, from, to, false) <= |Recent(log, now, window)|
    ensures Within(log, from, to, true) <= Failures(Recent(log, now, window))
  {
    if log == [] {
    } else {
      var n := |log| - 1;
      WithinRecent(log[..n], from, to, now, window);
      FailuresOfAppend(Recent(log[..n], now, window), log[n]);
    }
  }

  /** What Attempt lets through still fits into every window. */
  lemma OneMoreFits(p: Policy, log: seq<Rate>, a: Rate, from: Time)
    requires Judge(p, log, a.at).0
    requires Within(log, from, from + p.window, true) <= p.maxFailures
    requires Within(log, from, from + p.window, false) <= p.maxAttempts
    ensures Within(log + [a], from, from + p.window, true) <= p.maxFailures
    ensures Within(log + [a], from, from + p.window, false) <= p.maxAttempts
  {
    assert (log + [a])[..|log|] == log;
    if from <= a.at < from + p.window {
      WithinRecent(log, from, from + p.window, a.at, p.window);
    }
  }

  lemma {:induction false} Bounded(p: Policy, es: seq<Event>, key: Key, from: Time)
    requires p.maxFailures >= 0 && p.maxAttempts >= 0
    ensures Within(Log(p, es, key), from, from + p.window, true) <= p.maxFailures
    ensures Within(Log(p, es, key), from, from + p.window, false) <= p.maxAttempts
  {
    if es == [] {
    } else {
      var n := |es| - 1;
      Bounded(p, es[..n], key, from);
      var log, e := Log(p, es[..n], key), es[n];
      if Log(p, es, key) != log {
        OneMoreFits(p, log, Rate(e.now, !e.good), from);
      }
    }
  }

  // ---- the wait ----

  predicate Relevant(a: Rate, badOnly: bool) {
    badOnly ==> a.bad
  }

  ghost predicate AfterZero(list: seq<Rate>) {
    forall i | 0 <= i < |list| :: list[i].at > 0
  }

  ghost predicate NotAfter(list: seq<Rate>, now: Time) {
    forall i | 0 <= i < |list| :: list[i].at <= now
  }

  /** The sentinel search finds the oldest entry when all times lie after the zero time. */
  lemma {:induction false} OldestIsMin(list: seq<Rate>, badOnly: bool) returns (k: nat)
    requires AfterZero(list)
    ensures forall i | 0 <= i < |list| && Relevant(list[i], badOnly) :: 0 < Oldest(list, badOnly) <= list[i].at
    ensures Oldest(list, badOnly) != 0 ==>
              k < |list| && Relevant(list[k], badOnly) && list[k].at == Oldest(list, badOnly) > 0
  {
    k := 0;
    if list == [] {
    } else {
      var n := |list| - 1;
      k := OldestIsMin(list[..n], badOnly);
      assert forall i | 0 <= i < n :: list[..n][i] == list[i];
      if Relevant(list[n], badOnly) && Oldest(list, badOnly) == list[n].at {
        k := n;
      }
    }
  }

  lemma {:induction false} RecentMembers(list: seq<Rate>, now: Time, window: int, a: Rate)
    ensures a in Recent(list, now, window) <==> a in list && now - a.at < window
  {
    if list == [] {
    } else {
      var n := |list| - 1;
      RecentMembers(list[..n], now, window, a);
      assert list == list[..n] + [list[n]];
    }
  }

  lemma {:induction false} FailuresZero(list: seq<Rate>)
    ensures Failures(list) > 0 <==> exists i :: 0 <= i < |list| && list[i].bad
  {
    if list == [] {
    } else {
      var n := |list| - 1;
      FailuresZero(list[..n]);
      if i :| 0 <= i < n && list[i].bad {
        assert list[..n][i].bad;
      }
    }
  }

  lemma {:induction false} RecentShrinks(list: seq<Rate>, t: Time, now: Time, window: int)
    requires t <= now
    ensures |Recent(list, now, window)| <= |Recent(list, t, window)|
    ensures Failures(Recent(list, now, window)) <= Failures(Recent(list, t, window))
  {
    if list == [] {
    } else {
      var n := |list| - 1;
      RecentShrinks(list[..n], t, now, window);
      FailuresOfAppend(Recent(list[..n], t, window), list[n]);
      FailuresOfAppend(Recent(list[..n], now, window), list[n]);
    }
  }

  /** Once the entry leaves the window, one fewer counts. */
  lemma {:induction false} RecentLoses(list: seq<Rate>, a: Rate, t: Time, now: Time, window: int)
    requires t <= now && a in list && t - a.at < window <= now - a.at
    ensures |Recent(list, now, window)| < |Recent(list, t, window)|
    ensures a.bad ==> Failures(Recent(list, now, window)) < Failures(Recent(list, t, window))
  {
    var n := |list| - 1;
    FailuresOfAppend(Recent(list[..n], t, window), list[n]);
    FailuresOfAppend(Recent(list[..n], now, window), list[n]);
    if a in list[..n] {
      RecentLoses(list[..n], a, t, now, window);
    } else {
      assert list[n] == a by {
        assert list == list[..n] + [list[n]];
      }
      RecentShrinks(list[..n], t, now, window);
    }
  }

  /** While no entry of the kind leaves the window, the count stays. */
  lemma {:induction false} RecentKeeps(list: seq<Rate>, t: Time, now: Time, window: int, badOnly: bool)
    requires t <= now
    requires forall i | 0 <= i < |list| && Relevant(list[i], badOnly) && t - list[i].at < window ::
      now - list[i].at < window
    ensures badOnly ==> Failures(Recent(list, now, window)) == Failures(Recent(list, t, window))
    ensures !badOnly ==> Recent(list, now, window) == Recent(list, t, window)
  {
    if list == [] {
    } else {
      var n := |list| - 1;
      assert forall i | 0 <= i < n :: list[..n][i] == list[i];
      RecentKeeps(list[..n], t, now, window, badOnly);
      FailuresOfAppend(Recent(list[..n], t, window), list[n]);
      FailuresOfAppend(Recent(list[..n], now, window), list[n]);
    }
  }

  /** Within the limits that Attempt enforces, for the window that ends now. */
  predicate InLimits(p: Policy, log: seq<Rate>, now: Time) {
    |Recent(log, now, p.window)| <= p.maxAttempts && Failures(Recent(log, now, p.window)) <= p.maxFailures
  }

  predicate Positive(p: Policy) {
    p.window > 0 && p.maxFailures > 0 && p.maxAttempts > 0
  }

  /** The oldest counted entry of a full window, and the wait it gives: never the fallback. */
  lemma OldestCounts(p: Policy, log: seq<Rate>, now: Time, badOnly: bool) returns (a: Rate)
    requires AfterZero(log)
    requires if badOnly then Failures(Recent(log, now, p.window)) > 0 else |Recent(log, now, p.window)| > 0
    ensures a in log && Relevant(a, badOnly) && now - a.at < p.window
    ensures Oldest(Recent(log, now, p.window), badOnly) == a.at
    ensures forall b | b in log && Relevant(b, badOnly) && now - b.at < p.window :: a.at <= b.at
    ensures WaitFrom(p, a.at, now) == p.window - (now - a.at) > 0
  {
    var kept := Recent(log, now, p.window);
    forall b ensures b in kept <==> b in log && now - b.at < p.window {
      RecentMembers(log, now, p.window, b);
    }
    forall i | 0 <= i < |kept| ensures kept[i].at > 0 {
      assert kept[i] in log;
    }
    var k := OldestIsMin(kept, badOnly);
    FailuresZero(kept);
    assert !badOnly ==> Relevant(kept[0], badOnly);
    a := kept[k];
    forall b | b in log && Relevant(b, badOnly) && now - b.at < p.window ensures a.at <= b.at {
      assert b in kept;
    }
  }

  /**
    A denied key, if nothing else is recorded, is denied at every instant before the returned
    wait is over, and allowed from then on.
   */
  lemma ExactWait(p: Policy, log: seq<Rate>, now: Time, t: Time)
    requires Positive(p) && AfterZero(log) && InLimits(p, log, now) && !Judge(p, log, now).0 && now <= t
    ensures Judge(p, log, now).1 > 0
    ensures Judge(p, log, t).0 <==> now + Judge(p, log, now).1 <= t
  {
    var badOnly := Failures(Recent(log, now, p.window)) >= p.maxFailures;
    var a := OldestCounts(p, log, now, badOnly);
    RecentShrinks(log, now, t, p.window);
    if t - a.at < p.window {
      forall i | 0 <= i < |log| && Relevant(log[i], badOnly) && now - log[i].at < p.window
        ensures t - log[i].at < p.window
      {
        assert log[i] in log;
      }
      RecentKeeps(log, now, t, p.window, badOnly);
    } else {
      RecentLoses(log, a, now, t, p.window);
    }
  }

  lemma {:induction false} LogTimes(p: Policy, es: seq<Event>, key: Key, now: Time)
    requires Clocked(es) && forall i | 0 <= i < |es| :: es[i].now <= now
    ensures AfterZero(Log(p, es, key)) && NotAfter(Log(p, es, key), now)
  {
    if es == [] {
    } else {
      LogTimes(p, es[..|es| - 1], key, now);
    }
  }

  lemma {:induction false} RecentIsWithin(log: seq<Rate>, now: Time, window: int)
    requires NotAfter(log, now)
    ensures |Recent(log, now, window)| == Within(log, now - window + 1, now + 1, false)
    ensures Failures(Recent(log, now, window)) == Within(log, now - window + 1, now + 1, true)
  {
    if log == [] {
    } else {
      var n := |log| - 1;
      assert forall i | 0 <= i < n :: log[..n][i] == log[i];
      RecentIsWithin(log[..n], now, window);
      FailuresOfAppend(Recent(log[..n], now, window), log[n]);
    }
  }

  lemma RunsStayInLimits(p: Policy, es: seq<Event>, key: Key, now: Time)
    requires Positive(p) && Clocked(es) && forall i | 0 <= i < |es| :: es[i].now <= now
    ensures InLimits(p, Log(p, es, key), now)
  {
    LogTimes(p, es, key, now);
    RecentIsWithin(Log(p, es, key), now, p.window);
    Bounded(p, es, key, now - p.window + 1);
  }

  /** Fewer failures, and fewer attempts, than the limits were ever recorded in the window that ends now. */
  predicate BelowLimits(p: Policy, log: seq<Rate>, now: Time) {
    && Within(log, now - p.window + 1, now + 1, true) < p.maxFailures
    && Within(log, now - p.window + 1, now + 1, false) < p.maxAttempts
  }

  lemma JudgedByCounts(p: Policy, log: seq<Rate>, now: Time)
    requires NotAfter(log, now)
    ensures Judge(p, log, now).0 == BelowLimits(p, log, now)
    ensures Judge(p, log, now).0 ==> Judge(p, log, now).1 == 0
  {
    RecentIsWithin(log, now, p.window);
  }

  /** An attempt is let through exactly below the limits, and is then verified as its credentials say. */
  lemma AllowedExactly(p: Policy, es: seq<Event>, e: Event)
    requires Clocked(es + [e])
    ensures VerdictAfter(p, es, e).allowed == BelowLimits(p, Log(p, es, e.key), e.now)
    ensures VerdictAfter(p, es, e).verified == (VerdictAfter(p, es, e).allowed && e.good)
    ensures VerdictAfter(p, es, e).allowed ==> VerdictAfter(p, es, e).wait == 0
  {
    ClockedBefore(es, e);
    SameVerdict(p, es, e);
    LogTimes(p, es, e.key, e.now);
    JudgedByCounts(p, Log(p, es, e.key), e.now);
  }

  /** It is recorded exactly if it was let through and failed, or counts although it succeeded. */
  lemma RecordedExactly(p: Policy, es: seq<Event>, e: Event)
    requires Clocked(es + [e])
    ensures Log(p, es + [e], e.key) == Log(p, es, e.key) +
      if BelowLimits(p, Log(p, es, e.key), e.now) && (e.countSuccess || !e.good) then [Rate(e.now, !e.good)] else []
  {
    ClockedBefore(es, e);
    LogTimes(p, es, e.key, e.now);
    JudgedByCounts(p, Log(p, es, e.key), e.now);
    LogOfNext(p, es, e, e.key);
  }

  // ---- Retry-After ----

  /** The seconds of the header: the wait truncated toward zero to whole seconds, plus one. */
  function RetryAfter(wait: int): int {
    (if wait >= 0 then wait / SECOND else -(-wait / SECOND)) + 1
  }

  lemma ClockedBefore(es: seq<Event>, e: Event)
    requires Clocked(es + [e])
    ensures Clocked(es) && forall i | 0 <= i < |es| :: es[i].now <= e.now
  {
    assert forall i | 0 <= i < |es| :: es[i] == (es + [e])[i];
    assert (es + [e])[|es|] == e;
  }

  /** A denied attempt records nothing. */
  lemma DenialLeavesNoTrace(p: Policy, es: seq<Event>, e: Event)
    requires Clocked(es + [e])
    requires !VerdictAfter(p, es, e).allowed
    ensures Log(p, es + [e], e.key) == Log(p, es, e.key)
    ensures Judge(p, Log(p, es, e.key), e.now) ==
      (false, VerdictAfter(p, es, e).wait)
  {
    SameVerdict(p, es, e);
    assert (es + [e])[..|es|] == es;
  }

  /** The situation in which Attempt denied e after the events es, with the given wait. */
  ghost predicate Denied(p: Policy, es: seq<Event>, e: Event, wait: int) {
    && Clocked(es + [e])
    && VerdictAfter(p, es, e) == Verdict(false, false, wait)
  }

  lemma DeniedFacts(p: Policy, es: seq<Event>, e: Event, wait: int)
    requires Positive(p) && Denied(p, es, e, wait)
    ensures AfterZero(Log(p, es, e.key)) && InLimits(p, Log(p, es, e.key), e.now)
    ensures Judge(p, Log(p, es, e.key), e.now) == (false, wait)
  {
    DenialLeavesNoTrace(p, es, e);
    ClockedBefore(es, e);
    LogTimes(p, es, e.key, e.now);
    RunsStayInLimits(p, es, e.key, e.now);
  }

  /** By the rule, without further attempts: denied before the wait is over, allowed from then on. */
  lemma JudgedUntilWaitIsOver(p: Policy, es: seq<Event>, e: Event, wait: int, t: Time)
    requires Positive(p) && Denied(p, es, e, wait) && e.now <= t
    ensures wait > 0 && (Judge(p, Log(p, es, e.key), t).0 <==> e.now + wait <= t)
  {
    DeniedFacts(p, es, e, wait);
    ExactWait(p, Log(p, es, e.key), e.now, t);
  }

  /** The key's attempts among the events all come before the given time. */
  ghost predicate TooEarly(more: seq<Event>, key: Key, until: Time) {
    forall k | 0 <= k < |more| && more[k].key == key :: more[k].now < until
  }

  lemma LogOfNext(p: Policy, es: seq<Event>, f: Event, key: Key)
    ensures Log(p, es + [f], key) ==
      if f.key == key && Judge(p, Log(p, es, key), f.now).0 && (f.countSuccess || !f.good)
      then Log(p, es, key) + [Rate(f.now, !f.good)] else Log(p, es, key)
  {
    assert (es + [f])[..|es|] == es;
  }

  lemma ClockedPrefix(es: seq<Event>, n: nat)
    requires Clocked(es) && n <= |es|
    ensures Clocked(es[..n])
  {
  }

  /** Attempts before the wait is over are denied too and leave no trace; other keys leave none anyway. */
  lemma {:induction false} EarlyAttemptsLeaveNoTrace(p: Policy, es: seq<Event>, e: Event, wait: int, more: seq<Event>)
    requires Positive(p) && Denied(p, es, e, wait) && Clocked(es + [e] + more) && TooEarly(more, e.key, e.now + wait)
    ensures Log(p, es + [e] + more, e.key) == Log(p, es, e.key)
  {
    var all := es + [e] + more;
    if more == [] {
      assert all == es + [e];
      DenialLeavesNoTrace(p, es, e);
    } else {
      var n := |more| - 1;
      var f := more[n];
      assert all == es + [e] + more[..n] + [f] && all[..|all| - 1] == es + [e] + more[..n];
      ClockedPrefix(all, |all| - 1);
      EarlyAttemptsLeaveNoTrace(p, es, e, wait, more[..n]);
      assert all[|es|] == e && all[|all| - 1] == f;
      JudgedUntilWaitIsOver(p, es, e, wait, f.now);
      LogOfNext(p, es + [e] + more[..n], f, e.key);
    }
  }

  /**
    After a denial, and whatever attempts follow before its wait is over, on this key or others:
    the key's next attempt is let through exactly if the wait is over.
   */
  lemma DeniedUntilWaitIsOver(p: Policy, es: seq<Event>, e: Event, wait: int, more: seq<Event>, f: Event)
    requires Positive(p) && Denied(p, es, e, wait) && f.key == e.key
    requires Clocked(es + [e] + more + [f]) && TooEarly(more, e.key, e.now + wait)
    ensures var v := VerdictAfter(p, es + [e] + more, f);
      v.allowed <==> e.now + wait <= f.now
  {
    var before := es + [e] + more;
    ClockedBefore(before, f);
    EarlyAttemptsLeaveNoTrace(p, es, e, wait, more);
    SameVerdict(p, before, f);
    assert before[|es|] == e;
    JudgedUntilWaitIsOver(p, es, e, wait, f.now);
  }

  lemma RetryAfterRounds(wait: int)
    requires wait >= 0
    ensures wait < RetryAfter(wait) * SECOND <= wait + SECOND
  {
  }

  /**
    A client that waits for Retry-After seconds is let through, however often it or others tried
    before; it waits at most a second too long.
   */
  lemma RetryAfterSuffices(p: Policy, es: seq<Event>, e: Event, wait: int, more: seq<Event>, f: Event)
    requires Positive(p) && Denied(p, es, e, wait) && f.key == e.key
    requires Clocked(es + [e] + more + [f]) && TooEarly(more, e.key, e.now + wait)
    requires e.now + RetryAfter(wait) * SECOND <= f.now
    ensures VerdictAfter(p, es + [e] + more, f).allowed
    ensures RetryAfter(wait) * SECOND <= wait + SECOND
  {
    JudgedUntilWaitIsOver(p, es, e, wait, e.now);
    RetryAfterRounds(wait);
    DeniedUntilWaitIsOver(p, es, e, wait, more, f);
  }
}
