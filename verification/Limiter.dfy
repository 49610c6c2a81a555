/** The request limiter: one sorted set per key, trimmed, counted, extended and given a TTL by one script. */
module Limiter {
  import opened Options
  import opened Windows

  /** EXPIRE takes whole seconds, rounded up; a TTL of zero removes the key at once. */
  function SecondsUp(ms: nat): nat {
    (ms + 999) / 1000
  }

  function AllowScript(k: ZKey, now: int, window: nat, limit: int, id: Id): (ZKey, bool) {
    var trimmed := Trim(k, now, Cutoff(Sliding(window), now));
    if limit <= |Members(trimmed, now)| then (trimmed, false)
    else if SecondsUp(window) == 0 then (Absent, true)
    else (Add(trimmed, now, id, now + 1000 * SecondsUp(window)), true)
  }

  /** One key under its fixed window, with the record of everything it ever granted. */
  datatype Gate = Gate(key: ZKey, granted: map<Id, int>)

  datatype Call = Call(now: int, limit: int, id: Id)

  function Apply(g: Gate, window: nat, c: Call): (Gate, bool) {
    var (key, allowed) := AllowScript(g.key, c.now, window, c.limit, c.id);
    (Gate(key, if allowed then g.granted[c.id := c.now] else g.granted), allowed)
  }

  function Run(window: nat, calls: seq<Call>): Gate {
    if calls == [] then Gate(Absent, map[])
    else Apply(Run(window, calls[..|calls| - 1]), window, calls[|calls| - 1]).0
  }

  /** Time does not go back and every member id is fresh. */
  ghost predicate Admissible(calls: seq<Call>) {
    forall i, j :: 0 <= i < j < |calls| ==> calls[i].now <= calls[j].now && calls[i].id != calls[j].id
  }

  ghost predicate Inv(window: nat, calls: seq<Call>, g: Gate) {
    && (calls == [] ==> g == Gate(Absent, map[]))
    && (calls != [] ==> Tracks(Sliding(window), g.key, g.granted, calls[|calls| - 1].now))
    && (forall id | id in g.granted :: exists i :: 0 <= i < |calls| && calls[i].id == id)
  }

  /** The grants in (t - window, t]. */
  ghost function InWindow(granted: map<Id, int>, window: nat, t: int): set<Id> {
    set id | id in granted && t - window < granted[id] <= t
  }

  lemma WindowMeans(granted: map<Id, int>, window: nat, t: int)
    ensures Within(Sliding(window), granted, t) == InWindow(granted, window, t)
  {
  }

  /** The gate grants exactly when fewer than `limit` grants lie in the window ending now. */
  ghost predicate AnswersExactly(g: Gate, window: nat, c: Call) {
    Apply(g, window, c).1 <==> |Within(Sliding(window), g.granted, c.now)| < c.limit
  }

  lemma StepExact(g: Gate, window: nat, clock: int, c: Call)
    requires Tracks(Sliding(window), g.key, g.granted, clock) && clock <= c.now && c.id !in g.granted
    ensures AnswersExactly(g, window, c)
    ensures Apply(g, window, c).1 ==> |Recent(Sliding(window), g.granted, c.now)| < c.limit
    ensures Tracks(Sliding(window), Apply(g, window, c).0.key, Apply(g, window, c).0.granted, c.now)
  {
    var w := Sliding(window);
    TrimTracks(w, g.key, g.granted, clock, c.now);
    var trimmed := Trim(g.key, c.now, Cutoff(w, c.now));
    assert Recent(w, g.granted, c.now).Keys == Within(w, g.granted, c.now);
    var deadline := c.now + 1000 * SecondsUp(window);
    SlidingCovered(window, deadline, c.now);
    forall x | x in g.granted ensures Covered(w, deadline, g.granted[x]) {
      SlidingCovered(window, deadline, g.granted[x]);
    }
    AddTracks(w, trimmed, g.granted, c.now, c.id, deadline);
  }

  lemma EmptyTracks(window: nat, clock: int)
    ensures Tracks(Sliding(window), Absent, map[], clock)
  {
  }

  lemma {:induction false} RunInv(window: nat, calls: seq<Call>)
    requires Admissible(calls)
    ensures Inv(window, calls, Run(window, calls))
    decreases |calls|
  {
    if calls != [] {
      var before, c := calls[..|calls| - 1], calls[|calls| - 1];
      RunInv(window, before);
      var g := Run(window, before);
      var clock := if before == [] then c.now else before[|before| - 1].now;
      EmptyTracks(window, clock);
      StepExact(g, window, clock, c);
      forall id | id in Apply(g, window, c).0.granted ensures exists i :: 0 <= i < |calls| && calls[i].id == id {
        if id == c.id {
          assert calls[|calls| - 1].id == id;
        } else {
          var i :| 0 <= i < |before| && before[i].id == id;
          assert calls[i].id == id;
        }
      }
    }
  }

  /**
   Exact sliding window: after any run of calls with any limits, the next call is allowed
   exactly when fewer than `limit` of all grants ever made lie in (now - window, now];
   neither trimming nor the rounded TTL ever drops a grant that still counts.
   */
  lemma AllowIsExact(window: nat, calls: seq<Call>, c: Call)
    requires Admissible(calls + [c])
    ensures var g := Run(window, calls);
            Apply(g, window, c).1 <==> |InWindow(g.granted, window, c.now)| < c.limit
  {
    WindowMeans(Run(window, calls).granted, window, c.now);
    assert calls == (calls + [c])[..|calls|];
    RunInv(window, calls);
    var g := Run(window, calls);
    forall id | id in g.granted ensures id != c.id {
      var i :| 0 <= i < |calls| && calls[i].id == id;
      assert (calls + [c])[i] == calls[i] && (calls + [c])[|calls|] == c;
    }
    if calls != [] {
      var last := |calls| - 1;
      assert (calls + [c])[last] == calls[last] && (calls + [c])[|calls|] == c;
      StepExact(g, window, calls[last].now, c);
    } else {
      EmptyTracks(window, c.now);
      StepExact(g, window, c.now, c);
    }
  }

  /** No window of this length, wherever it ends, ever holds more grants than the largest limit used. */
  lemma WindowNeverExceeds(window: nat, calls: seq<Call>, limit: nat)
    requires Admissible(calls) && forall c | c in calls :: c.limit <= limit
    ensures forall t: int :: |InWindow(Run(window, calls).granted, window, t)| <= limit
  {
    StaysBounded(window, calls, limit);
    forall t: int ensures |InWindow(Run(window, calls).granted, window, t)| <= limit {
      WindowMeans(Run(window, calls).granted, window, t);
    }
  }

  lemma {:induction false} StaysBounded(window: nat, calls: seq<Call>, limit: nat)
    requires Admissible(calls) && forall c | c in calls :: c.limit <= limit
    ensures Bounded(Sliding(window), Run(window, calls).granted, limit)
    decreases |calls|
  {
    if calls == [] {
      forall t: int ensures |Within(Sliding(window), map[], t)| <= limit {
        assert Within(Sliding(window), map[], t) == {};
      }
    } else {
      var before, c := calls[..|calls| - 1], calls[|calls| - 1];
      StaysBounded(window, before, limit);
      RunInv(window, before);
      var g := Run(window, before);
      var clock := if before == [] then c.now else before[|before| - 1].now;
      EmptyTracks(window, clock);
      StepExact(g, window, clock, c);
      if Apply(g, window, c).1 {
        AddBounded(Sliding(window), g.granted, c.now, c.id, limit);
      }
    }
  }

  /** The members of a key that are visible at `now` and less than one window old. */
  ghost function Counting(k: ZKey, now: int, window: nat): set<Id> {
    if k.Present? && now <= k.deadline then set id | id in k.members && now - window < k.members[id] else {}
  }

  lemma TrimmedCounts(k: ZKey, now: int, window: nat)
    ensures Members(Trim(k, now, Cutoff(Sliding(window), now)), now).Keys == Counting(k, now, window)
  {
  }

  /** What the script counts, and what it leaves to be counted. */
  lemma ScriptCounts(k: ZKey, now: int, window: nat, limit: int, id: Id)
    ensures var (k', allowed) := AllowScript(k, now, window, limit, id);
            && (allowed <==> |Counting(k, now, window)| < limit)
            && (0 < window ==> Counting(k', now, window) == Counting(k, now, window) + if allowed then {id} else {})
  {
    TrimmedCounts(k, now, window);
    var trimmed := Trim(k, now, Cutoff(Sliding(window), now));
    assert |Members(trimmed, now)| == |Members(trimmed, now).Keys|;
  }

  class RateLimiter {
    var store: map<string, ZKey>

    constructor ()
      ensures store == map[]
    {
      store := map[];
    }

    function Key(key: string): ZKey
      reads this
    {
      if key in store then store[key] else Absent
    }

    /** One call: an unreachable store is an error and changes nothing; else exactly this key changes, by the script. */
    method Allow(key: string, limit: int, window: nat, now: int, id: Id, reachable: bool) returns (r: Option<bool>)
      modifies this
      ensures r.None? <==> !reachable
      ensures r.Some? ==> (Key(key), r.value) == AllowScript(old(Key(key)), now, window, limit, id)
      ensures r.Some? ==> (r.value <==> |Counting(old(Key(key)), now, window)| < limit)
      ensures r.Some? && 0 < window ==>
                Counting(Key(key), now, window) == Counting(old(Key(key)), now, window) + if r.value then {id} else {}
      ensures forall other: string | other != key || !reachable :: Key(other) == old(Key(other))
    {
      if !reachable {
        return None;
      }
      ScriptCounts(Key(key), now, window, limit, id);
      var trimmed := Trim(Key(key), now, Cutoff(Sliding(window), now));
      store := store[key := trimmed];
      var current := |Members(trimmed, now)|;
      if limit <= current {
        return Some(false);
      }
      store := store[key := Add(trimmed, now, id, now + 1000 * SecondsUp(window))];
      if SecondsUp(window) == 0 {
        store := store - {key};
      }
      return Some(true);
    }
  }
}
