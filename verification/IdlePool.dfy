/** The pool of idle sessions: src/proxy/session/client.rs. */
module IdlePool {
  import opened Bytes
  import opened Options

  /** A pooled session under its sequence number, with the time it went idle. */
  datatype Idle = Idle(seqNo: U64, session: nat, since: int)

  predicate Stale(e: Idle, now: int, timeout: nat) { now - e.since >= timeout }

  /** The positions of the timed-out entries among the first `n`, in order. */
  function StaleIndices(s: seq<Idle>, now: int, timeout: nat, n: nat): (indices: seq<nat>)
    requires n <= |s|
    ensures forall i :: 0 <= i < |indices| ==> indices[i] < n
  {
    if n == 0 then []
    else StaleIndices(s, now, timeout, n - 1) + if Stale(s[n - 1], now, timeout) then [n - 1] else []
  }

  ghost predicate Increasing(indices: seq<nat>)
  {
    forall i, j :: 0 <= i < j < |indices| ==> indices[i] < indices[j]
  }

  /** All timed-out entries are listed, each once, in order. */
  lemma {:induction false} StaleIndicesExact(s: seq<Idle>, now: int, timeout: nat, n: nat)
    requires n <= |s|
    ensures Increasing(StaleIndices(s, now, timeout, n))
    ensures forall i: nat :: i in StaleIndices(s, now, timeout, n) <==> i < n && Stale(s[i], now, timeout)
  {
    if n > 0 {
      StaleIndicesExact(s, now, timeout, n - 1);
    }
  }

  /** `IndexMap::swap_remove_index`: the last entry takes the place of the removed one. */
  function SwapRemove(s: seq<Idle>, i: nat): (r: seq<Idle>)
    requires i < |s|
    ensures |r| == |s| - 1 && r[..i] == s[..i]
    ensures multiset(r) == multiset(s) - multiset{s[i]}
  {
    var last := |s| - 1;
    assert s == s[..last] + [s[last]];
    if i == last then s[..last]
    else
      assert s[..last] == s[..i] + [s[i]] + s[i + 1..last];
      assert s[..last][i := s[last]] == s[..i] + [s[last]] + s[i + 1..last];
      s[..last][i := s[last]]
  }

  /** The entries at the given positions. */
  function Select(s: seq<Idle>, indices: seq<nat>): (r: seq<Idle>)
    requires forall i :: 0 <= i < |indices| ==> indices[i] < |s|
    ensures |r| == |indices| && forall i :: 0 <= i < |r| ==> r[i] == s[indices[i]]
  {
    seq(|indices|, i requires 0 <= i < |indices| => s[indices[i]])
  }

  /** How many timed-out entries may go: never so many that fewer than `minIdle` stay. */
  function Removable(len: nat, stale: nat, minIdle: nat): nat
  {
    if len <= minIdle then 0 else if len - minIdle < stale then len - minIdle else stale
  }

  /** The positions `cleanup_stale` removes. */
  function Victims(s: seq<Idle>, now: int, timeout: nat, minIdle: nat): (indices: seq<nat>)
    ensures forall i :: 0 <= i < |indices| ==> indices[i] < |s|
  {
    var stale := StaleIndices(s, now, timeout, |s|);
    stale[..Removable(|s|, |stale|, minIdle)]
  }

  /** The positions of the entries that have waited for at least `timeout`. */
  ghost function Waited(s: seq<Idle>, now: int, timeout: nat): set<nat>
  {
    set i: nat | i < |s| && s[i].since + timeout <= now
  }

  /** The smaller of the two, and at least nothing. */
  function Least(room: int, n: nat): nat { if room <= 0 then 0 else if room < n then room else n }

  lemma {:induction false} IncreasingCard(indices: seq<nat>)
    requires Increasing(indices)
    ensures |(set i: nat | i in indices)| == |indices|
  {
    if indices != [] {
      var front, last := indices[..|indices| - 1], indices[|indices| - 1];
      IncreasingCard(front);
      assert (set i: nat | i in indices) == (set i: nat | i in front) + {last};
      assert last !in front;
    }
  }

  /** Whom a clean-up removes: entries that have waited for at least `timeout`, as many of them as
      leave `minIdle` entries, and the first ones. */
  lemma VictimsExactly(s: seq<Idle>, now: int, timeout: nat, minIdle: nat)
    ensures var victims := Victims(s, now, timeout, minIdle);
            && Increasing(victims) && |victims| == Least(|s| - minIdle, |Waited(s, now, timeout)|)
            && (forall i :: i in victims ==> i in Waited(s, now, timeout))
            && (forall i, j :: i in Waited(s, now, timeout) && i !in victims && j in victims ==> j < i)
  {
    var stale := StaleIndices(s, now, timeout, |s|);
    var victims := Victims(s, now, timeout, minIdle);
    StaleIndicesExact(s, now, timeout, |s|);
    IncreasingCard(stale);
    assert (set i: nat | i in stale) == Waited(s, now, timeout);
    forall i, j | i in Waited(s, now, timeout) && i !in victims && j in victims
      ensures j < i
    {
      assert i in stale;
      var a :| 0 <= a < |stale| && stale[a] == i;
      var b :| 0 <= b < |victims| && victims[b] == j;
      assert forall k :: 0 <= k < |victims| ==> victims[k] == stale[k];
    }
  }

  /** The last `k` positions of an increasing list leave room for each other. */
  lemma {:induction false} RoomAbove(indices: seq<nat>, j: nat, n: nat)
    requires Increasing(indices) && j < |indices| && forall i :: 0 <= i < |indices| ==> indices[i] < n
    ensures indices[j] + (|indices| - j) <= n
    decreases |indices| - j
  {
    if j + 1 < |indices| {
      RoomAbove(indices, j + 1, n);
    }
  }

  /** The scan for timed-out entries. */
  method TimedOut(s: seq<Idle>, now: int, timeout: nat) returns (indices: seq<nat>)
    ensures indices == StaleIndices(s, now, timeout, |s|)
  {
    indices := [];
    for index := 0 to |s|
      invariant indices == StaleIndices(s, now, timeout, index)
    {
      if Stale(s[index], now, timeout) {
        indices := indices + [index];
      }
    }
  }

  /** `pool` is `s` without the entries at `indices`, whose sessions are listed last first. */
  ghost predicate Removed(s: seq<Idle>, indices: seq<nat>, pool: seq<Idle>, sessions: seq<nat>)
    requires forall i :: 0 <= i < |indices| ==> indices[i] < |s|
  {
    && |pool| == |s| - |indices|
    && multiset(pool) + multiset(Select(s, indices)) == multiset(s)
    && |sessions| == |indices|
    && forall i :: 0 <= i < |indices| ==> sessions[i] == s[indices[|indices| - 1 - i]].session
  }

  /** Removes the entries at increasing positions, from the last position down, by swap-remove: gone
      are exactly the entries that were at those positions, although others move meanwhile. */
  method RemoveAll(s: seq<Idle>, indices: seq<nat>) returns (pool: seq<Idle>, removed: seq<nat>)
    requires Increasing(indices) && forall i :: 0 <= i < |indices| ==> indices[i] < |s|
    ensures Removed(s, indices, pool, removed)
  {
    hide Removing, SwapRemove, Select;
    pool, removed := s, [];
    var j := |indices|;
    NotYetRemoved(s, indices);
    while j > 0
      invariant 0 <= j <= |indices| && |removed| == |indices| - j
      invariant Removing(s, indices, j, pool)
      invariant forall i :: 0 <= i < |removed| ==> removed[i] == s[indices[|indices| - 1 - i]].session
    {
      j := j - 1;
      RemoveStep(s, indices, j, pool);
      removed := removed + [pool[indices[j]].session];
      pool := SwapRemove(pool, indices[j]);
    }
    AllRemoved(s, indices, pool);
  }

  /** The entries at positions `indices[j..]` are gone and those in front of them have not moved. */
  ghost predicate Removing(s: seq<Idle>, indices: seq<nat>, j: nat, pool: seq<Idle>)
    requires j <= |indices| && forall i :: 0 <= i < |indices| ==> indices[i] < |s|
  {
    && |pool| == |s| - (|indices| - j)
    && (j < |indices| ==> indices[j] <= |pool| && pool[..indices[j]] == s[..indices[j]])
    && (j == |indices| ==> pool == s)
    && multiset(pool) + multiset(Select(s, indices[j..])) == multiset(s)
  }

  lemma NotYetRemoved(s: seq<Idle>, indices: seq<nat>)
    requires forall i :: 0 <= i < |indices| ==> indices[i] < |s|
    ensures Removing(s, indices, |indices|, s)
  {
    assert indices[|indices|..] == [] && Select(s, indices[|indices|..]) == [];
  }

  lemma AllRemoved(s: seq<Idle>, indices: seq<nat>, pool: seq<Idle>)
    requires forall i :: 0 <= i < |indices| ==> indices[i] < |s|
    requires Removing(s, indices, 0, pool)
    ensures |pool| == |s| - |indices| && multiset(pool) + multiset(Select(s, indices)) == multiset(s)
  {
    assert indices[0..] == indices;
  }

  lemma RemoveStep(s: seq<Idle>, indices: seq<nat>, j: nat, pool: seq<Idle>)
    requires Increasing(indices) && j < |indices| && forall i :: 0 <= i < |indices| ==> indices[i] < |s|
    requires Removing(s, indices, j + 1, pool)
    ensures indices[j] < |pool| && pool[indices[j]] == s[indices[j]]
    ensures Removing(s, indices, j, SwapRemove(pool, indices[j]))
  {
    hide SwapRemove, Select;
    var i := indices[j];
    RoomAbove(indices, j, |s|);
    SelectMore(s, indices, j);
    assert pool[..i + 1] == s[..i + 1] by {
      if j + 1 < |indices| {
        assert pool[..i + 1] == pool[..indices[j + 1]][..i + 1];
      }
    }
    assert pool[i] == pool[..i + 1][i] && pool[..i] == pool[..i + 1][..i];
  }

  lemma SelectMore(s: seq<Idle>, indices: seq<nat>, j: nat)
    requires j < |indices| && forall i :: 0 <= i < |indices| ==> indices[i] < |s|
    ensures multiset(Select(s, indices[j..])) == multiset{s[indices[j]]} + multiset(Select(s, indices[j + 1..]))
  {
    assert Select(s, indices[j..]) == [s[indices[j]]] + Select(s, indices[j + 1..]);
  }

  // ---- Taking a session for reuse ----

  /** Entry `k` may be reused when it is the last one: it is alive, and it is among the `minIdle` first
      or has waited for less than `timeout`. */
  ghost predicate Reusable(s: seq<Idle>, k: nat, dead: set<nat>, now: int, timeout: nat, minIdle: nat)
    requires k < |s|
  {
    s[k].session !in dead && (k < minIdle || now < s[k].since + timeout)
  }

  /** The live sessions among the entries from `k` on, last first. */
  function Live(s: seq<Idle>, k: nat, dead: set<nat>): seq<nat>
    requires k <= |s|
    decreases |s| - k
  {
    if k == |s| then [] else Live(s, k + 1, dead) + if s[k].session in dead then [] else [s[k].session]
  }

  ghost predicate DistinctKeys(s: seq<Idle>)
  {
    forall i, j :: 0 <= i < j < |s| ==> s[i].seqNo != s[j].seqNo
  }

  class IdleSessionPool {
    var sessions: seq<Idle>

    ghost predicate Valid()
      reads this
    {
      DistinctKeys(sessions)
    }

    constructor ()
      ensures Valid() && sessions == []
    {
      sessions := [];
    }

    /** Returns a session to the pool unless its number is there already. */
    method ReturnSession(seqNo: U64, session: nat, now: int)
      requires Valid()
      modifies this
      ensures Valid()
      ensures sessions == if exists i :: 0 <= i < |old(sessions)| && old(sessions)[i].seqNo == seqNo
                          then old(sessions) else old(sessions) + [Idle(seqNo, session, now)]
    {
      var i := 0;
      while i < |sessions|
        invariant 0 <= i <= |sessions| && sessions == old(sessions)
        invariant forall j :: 0 <= j < i ==> sessions[j].seqNo != seqNo
      {
        if sessions[i].seqNo == seqNo {
          return;
        }
        i := i + 1;
      }
      sessions := sessions + [Idle(seqNo, session, now)];
    }

    /** Pops entries until one can be reused. Everything behind it is gone, and those of them that
        were alive, hence stale and beyond the floor, are terminated. */
    method TakeReusable(dead: set<nat>, now: int, timeout: nat, minIdle: nat)
      returns (found: Option<Idle>, terminated: seq<nat>)
      requires Valid()
      modifies this
      ensures Valid() && sessions <= old(sessions)
      ensures forall k :: |sessions| + (if found.Some? then 1 else 0) <= k < |old(sessions)| ==>
                !Reusable(old(sessions), k, dead, now, timeout, minIdle)
      ensures found.None? ==> sessions == []
      ensures found.Some? ==>
                && |sessions| < |old(sessions)| && found.value == old(sessions)[|sessions|]
                && Reusable(old(sessions), |sessions|, dead, now, timeout, minIdle)
      ensures terminated == Live(old(sessions), |sessions| + (if found.Some? then 1 else 0), dead)
    {
      terminated := [];
      while sessions != []
        invariant sessions <= old(sessions)
        invariant forall k :: |sessions| <= k < |old(sessions)| ==>
                    !Reusable(old(sessions), k, dead, now, timeout, minIdle)
        invariant terminated == Live(old(sessions), |sessions|, dead)
        decreases |sessions|
      {
        var last := |sessions| - 1;
        var isProtected := |sessions| <= minIdle;
        var candidate := sessions[last];
        sessions := sessions[..last];
        if candidate.session !in dead {
          if isProtected || !Stale(candidate, now, timeout) {
            return Some(candidate), terminated;
          }
          terminated := terminated + [candidate.session];
        }
      }
      found := None;
    }

    /** Removes exactly the first min(len - minIdle, number timed out) timed-out entries, keeps every
        other entry, and never takes the pool below the floor. */
    method CleanupStale(now: int, timeout: nat, minIdle: nat) returns (terminated: seq<nat>)
      requires Valid()
      modifies this
      ensures Valid()
      ensures Removed(old(sessions), Victims(old(sessions), now, timeout, minIdle), sessions, terminated)
      ensures |sessions| == |old(sessions)| - Least(|old(sessions)| - minIdle, |Waited(old(sessions), now, timeout)|)
      ensures |old(sessions)| > minIdle ==> |sessions| >= minIdle
    {
      VictimsExactly(sessions, now, timeout, minIdle);
      hide DistinctKeys, Removed, StaleIndices;
      terminated := [];
      if |sessions| <= minIdle {
        NoneRemoved(sessions);
        return;
      }
      var timedOut := TimedOut(sessions, now, timeout);
      var count := if |sessions| - minIdle < |timedOut| then |sessions| - minIdle else |timedOut|;
      StaleIndicesExact(sessions, now, timeout, |sessions|);
      var pool;
      pool, terminated := RemoveAll(sessions, timedOut[..count]);
      KeysStayDistinct(sessions, pool, timedOut[..count], terminated);
      sessions := pool;
    }
  }

  lemma NoneRemoved(s: seq<Idle>)
    ensures Removed(s, [], s, [])
  {
    assert Select(s, []) == [];
  }

  /** Entries that remain keep their distinct numbers. */
  lemma KeysStayDistinct(s: seq<Idle>, pool: seq<Idle>, indices: seq<nat>, sessions: seq<nat>)
    requires forall i :: 0 <= i < |indices| ==> indices[i] < |s|
    requires DistinctKeys(s) && Removed(s, indices, pool, sessions)
    ensures DistinctKeys(pool) && |pool| == |s| - |indices|
  {
    forall i, j | 0 <= i < j < |pool|
      ensures pool[i].seqNo != pool[j].seqNo
    {
      assert pool[i] in multiset(s) && pool[j] in multiset(s);
      if pool[i] == pool[j] {
        TwiceIn(pool, i, j);
        NotTwice(s, pool[i]);
      }
    }
  }

  lemma TwiceIn(s: seq<Idle>, i: nat, j: nat)
    requires i < j < |s| && s[i] == s[j]
    ensures multiset(s)[s[i]] >= 2
  {
    assert s == s[..j] + [s[j]] + s[j + 1..];
    assert s[i] in s[..j];
  }

  lemma {:induction false} NotTwice(s: seq<Idle>, e: Idle)
    requires DistinctKeys(s)
    ensures multiset(s)[e] <= 1
  {
    if s != [] {
      assert s == [s[0]] + s[1..];
      NotTwice(s[1..], e);
      if e == s[0] {
        assert e !in s[1..];
      }
    }
  }
}
