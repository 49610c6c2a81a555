/**
 Sorted-set keys with a time to live, and the two kinds of counting window the
 limiters keep in them: a sliding window of a fixed length and a UTC+8 calendar day.

 The theory here is what both limiters rest on: a key that is trimmed at every call and
 dropped when its deadline passes still shows, at every later instant, exactly the
 recorded grants that count.
 */
module Windows {

  type Id = nat

  const MINUTE_MS := 60000
  const DAY_MS := 24 * 60 * 60 * 1000
  const UTC8_OFFSET_MS := 8 * 60 * 60 * 1000

  datatype Window = Sliding(ms: nat) | CalendarDay

  /** First millisecond of the UTC+8 calendar day that contains `now`. */
  function DayStart(now: int): (start: int)
    ensures start <= now < start + DAY_MS
  {
    (now + UTC8_OFFSET_MS) / DAY_MS * DAY_MS - UTC8_OFFSET_MS
  }

  /** The least score that survives a trim at `now`. */
  function Cutoff(w: Window, now: int): int {
    match w
    case Sliding(ms) => now - ms + 1
    case CalendarDay => DayStart(now)
  }

  /** A sorted-set key. Redis removes a sorted set that becomes empty, and its deadline with it. */
  datatype ZKey = Absent | Present(members: map<Id, int>, deadline: int)

  /** What a command run at `now` sees: a key whose deadline has passed does not exist. */
  function Members(k: ZKey, now: int): map<Id, int> {
    if k.Present? && now <= k.deadline then k.members else map[]
  }

  function Rebuild(members: map<Id, int>, deadline: int): ZKey {
    if members == map[] then Absent else Present(members, deadline)
  }

  function AtLeast(m: map<Id, int>, cutoff: int): map<Id, int> {
    map id | id in m && cutoff <= m[id] :: m[id]
  }

  /** ZREMRANGEBYSCORE of everything below the cutoff. */
  function Trim(k: ZKey, now: int, cutoff: int): ZKey {
    Rebuild(AtLeast(Members(k, now), cutoff), if k.Present? then k.deadline else 0)
  }

  /** ZADD followed by setting the key's deadline. */
  function Add(k: ZKey, now: int, id: Id, deadline: int): ZKey {
    Present(Members(k, now)[id := now], deadline)
  }

  /** ZREM. */
  function Remove(k: ZKey, id: Id): ZKey {
    if k.Present? then Rebuild(k.members - {id}, k.deadline) else Absent
  }

  /** The grants that count at `now`. */
  function Recent(w: Window, grants: map<Id, int>, now: int): map<Id, int> {
    AtLeast(grants, Cutoff(w, now))
  }

  /** Once the deadline has passed, a member with this score no longer counts. */
  ghost predicate Covered(w: Window, deadline: int, score: int) {
    forall t: int :: deadline < t ==> score < Cutoff(w, t)
  }

  /**
   The key `k` is a faithful stand-in, from `clock` on, for the full record `grants`: it holds
   nothing that was not granted, it holds everything that still counts, and its deadline
   is late enough for all its members.
   */
  ghost predicate Tracks(w: Window, k: ZKey, grants: map<Id, int>, clock: int) {
    && (k.Present? ==> forall id | id in k.members ::
          id in grants && grants[id] == k.members[id] && Covered(w, k.deadline, k.members[id]))
    && (forall id | id in grants :: grants[id] <= clock)
    && (forall id | id in grants && Cutoff(w, clock) <= grants[id] :: k.Present? && id in k.members)
  }

  lemma DayStartMonotone(a: int, b: int)
    requires a <= b
    ensures DayStart(a) <= DayStart(b)
  {
    if DayStart(b) < DayStart(a) {
      DayStartsApart(b, a);
    }
  }

  lemma DayStartsApart(a: int, b: int)
    requires DayStart(a) < DayStart(b)
    ensures DayStart(a) + DAY_MS <= DayStart(b)
  {
    var p, q := (a + UTC8_OFFSET_MS) / DAY_MS, (b + UTC8_OFFSET_MS) / DAY_MS;
    assert p * DAY_MS < q * DAY_MS;
    assert p + 1 <= q;
  }

  lemma CutoffMonotone(w: Window, a: int, b: int)
    requires a <= b
    ensures Cutoff(w, a) <= Cutoff(w, b)
  {
    DayStartMonotone(a, b);
  }

  /** A sliding key is covered by a deadline one window later. */
  lemma SlidingCovered(ms: nat, deadline: int, score: int)
    requires score + ms <= deadline
    ensures Covered(Sliding(ms), deadline, score)
  {
  }

  /** A day key is covered by the end of the day of its last grant. */
  lemma DayCovered(now: int, score: int)
    requires score <= now
    ensures Covered(CalendarDay, DayStart(now) + DAY_MS, score)
  {
    forall t: int | DayStart(now) + DAY_MS < t ensures score < Cutoff(CalendarDay, t) {
      DayStartMonotone(now, t);
      if DayStart(now) < DayStart(t) {
        DayStartsApart(now, t);
      }
    }
  }

  /** Trimming and expiry never change what counts. */
  lemma SeesRecent(w: Window, k: ZKey, grants: map<Id, int>, clock: int, now: int)
    requires Tracks(w, k, grants, clock) && clock <= now
    ensures AtLeast(Members(k, now), Cutoff(w, now)) == Recent(w, grants, now)
    ensures forall id | id in Recent(w, grants, now) :: k.Present? && now <= k.deadline && id in k.members
  {
    CutoffMonotone(w, clock, now);
    forall id | id in Recent(w, grants, now) ensures id in Members(k, now) {
      assert Covered(w, k.deadline, k.members[id]);
    }
  }

  lemma TrimTracks(w: Window, k: ZKey, grants: map<Id, int>, clock: int, now: int)
    requires Tracks(w, k, grants, clock) && clock <= now
    ensures Tracks(w, Trim(k, now, Cutoff(w, now)), grants, now)
    ensures Members(Trim(k, now, Cutoff(w, now)), now) == Recent(w, grants, now)
  {
    SeesRecent(w, k, grants, clock, now);
    var trimmed := Trim(k, now, Cutoff(w, now));
    forall id | id in grants && Cutoff(w, now) <= grants[id]
      ensures trimmed.Present? && id in trimmed.members
    {
      assert id in Recent(w, grants, now);
    }
  }

  lemma AddTracks(w: Window, k: ZKey, grants: map<Id, int>, now: int, id: Id, deadline: int)
    requires Tracks(w, k, grants, now) && id !in grants
    requires Covered(w, deadline, now)
    requires forall x | x in grants :: Covered(w, deadline, grants[x])
    ensures Tracks(w, Add(k, now, id, deadline), grants[id := now], now)
  {
    SeesRecent(w, k, grants, now, now);
    var k' := Add(k, now, id, deadline);
    forall x | x in grants && Cutoff(w, now) <= grants[x] ensures x in k'.members {
      assert x in Recent(w, grants, now);
    }
  }

  lemma RemoveTracks(w: Window, k: ZKey, grants: map<Id, int>, clock: int, id: Id)
    requires Tracks(w, k, grants, clock)
    ensures Tracks(w, Remove(k, id), grants - {id}, clock)
  {
    var k' := Remove(k, id);
    forall x | x in grants - {id} && Cutoff(w, clock) <= (grants - {id})[x] ensures k'.Present? && x in k'.members {
      assert x in k.members - {id};
    }
  }

  /** An idle key keeps standing in for the same record as time passes. */
  lemma TracksLater(w: Window, k: ZKey, grants: map<Id, int>, clock: int, now: int)
    requires Tracks(w, k, grants, clock) && clock <= now
    ensures Tracks(w, k, grants, now)
  {
    CutoffMonotone(w, clock, now);
  }

  /** The grants inside the window that ends at `t`. */
  ghost function Within(w: Window, grants: map<Id, int>, t: int): set<Id> {
    set id | id in grants && Cutoff(w, t) <= grants[id] <= t
  }

  /** No window, wherever it ends, holds more than `limit` grants. */
  ghost predicate Bounded(w: Window, grants: map<Id, int>, limit: int) {
    forall t: int :: |Within(w, grants, t)| <= limit
  }

  lemma SubsetSize<T>(a: set<T>, b: set<T>)
    requires a <= b
    ensures |a| <= |b|
  {
    assert |b| == |b - a| + |a| by {
      assert b == (b - a) + a;
    }
  }

  /** A grant made while fewer than `limit` grants count keeps every window within the limit. */
  lemma AddBounded(w: Window, grants: map<Id, int>, now: int, id: Id, limit: int)
    requires Bounded(w, grants, limit) && id !in grants
    requires forall x | x in grants :: grants[x] <= now
    requires |Recent(w, grants, now)| < limit
    ensures Bounded(w, grants[id := now], limit)
  {
    var after := grants[id := now];
    forall t: int ensures |Within(w, after, t)| <= limit {
      if Cutoff(w, t) <= now <= t {
        CutoffMonotone(w, now, t);
        var recent := Recent(w, grants, now).Keys;
        SubsetSize(Within(w, after, t), recent + {id});
        assert |recent + {id}| <= limit;
      } else {
        assert Within(w, after, t) == Within(w, grants, t);
      }
    }
  }

  lemma RemoveBounded(w: Window, grants: map<Id, int>, id: Id, limit: int)
    requires Bounded(w, grants, limit)
    ensures Bounded(w, grants - {id}, limit)
  {
    forall t: int ensures |Within(w, grants - {id}, t)| <= limit {
      SubsetSize(Within(w, grants - {id}, t), Within(w, grants, t));
    }
  }
}
