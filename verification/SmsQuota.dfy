/**
 The SMS quota: four sorted-set keys per (IP, phone) pair, changed by two atomic scripts.

 `Grant` is one entry of the naive record the scripts stand in for: every reservation that was
 granted and not released, kept forever. The theorems say that the trimmed and expiring
 keys answer every run of calls exactly as the naive record would, that the record stays
 within the policy in every window, and that reserve followed by release leaves no trace.
 */
module SmsQuota {
  import opened Windows

  datatype Key =
    | IpMinute(ip: string)
    | PhoneMinute(phone: string)
    | IpDay(ip: string)
    | PhoneDay(phone: string)

  datatype Policy = Policy(ipMinute: int, phoneMinute: int, ipDay: int, phoneDay: int)

  datatype Reservation = Reservation(id: Id, ip: string, phone: string)

  type Store = map<Key, ZKey>

  /** The policy every SendCode call passes. */
  const SEND_POLICY := Policy(10, 1, 50, 5)

  function WindowOf(k: Key): Window {
    if k.IpMinute? || k.PhoneMinute? then Sliding(MINUTE_MS) else CalendarDay
  }

  function Keys(ip: string, phone: string): (ks: seq<Key>)
    ensures |ks| == 4 && forall i, j :: 0 <= i < j < 4 ==> ks[i] != ks[j]
  {
    [IpMinute(ip), PhoneMinute(phone), IpDay(ip), PhoneDay(phone)]
  }

  function Limits(p: Policy): (limits: seq<int>)
    ensures |limits| == 4
  {
    [p.ipMinute, p.phoneMinute, p.ipDay, p.phoneDay]
  }

  predicate PolicyValid(p: Policy) {
    p.ipMinute > 0 && p.phoneMinute > 0 && p.ipDay > 0 && p.phoneDay > 0
  }

  function Limit(p: Policy, k: Key): int {
    match k
    case IpMinute(_) => p.ipMinute
    case PhoneMinute(_) => p.phoneMinute
    case IpDay(_) => p.ipDay
    case PhoneDay(_) => p.phoneDay
  }

  function Get(store: Store, k: Key): ZKey {
    if k in store then store[k] else Absent
  }

  /** Deadline a grant at `now` gives the key: one minute, or the end of the day. */
  function DeadlineOf(k: Key, now: int): int {
    if WindowOf(k).Sliding? then now + MINUTE_MS else DayStart(now) + DAY_MS
  }

  function TrimmedKey(store: Store, k: Key, now: int): ZKey {
    Trim(Get(store, k), now, Cutoff(WindowOf(k), now))
  }

  function TrimAll(store: Store, ks: seq<Key>, now: int): Store {
    store + map k | k in ks :: TrimmedKey(store, k, now)
  }

  function AddAll(store: Store, ks: seq<Key>, now: int, id: Id): Store {
    store + map k | k in ks :: Add(Get(store, k), now, id, DeadlineOf(k, now))
  }

  function RemoveAll(store: Store, ks: seq<Key>, id: Id): Store {
    store + map k | k in ks :: Remove(Get(store, k), id)
  }

  /** Index (from 1) of the first key that is full, or 0. */
  function FirstFull(counts: seq<int>, limits: seq<int>, from: nat): (reason: nat)
    requires |counts| == |limits| == 4 && from <= 4
    ensures reason == 0 ==> forall i :: from <= i < 4 ==> counts[i] < limits[i]
    ensures reason != 0 ==> from < reason <= 4 && limits[reason - 1] <= counts[reason - 1]
    ensures reason != 0 ==> forall i :: from <= i < reason - 1 ==> counts[i] < limits[i]
    decreases 4 - from
  {
    if from == 4 then 0
    else if limits[from] <= counts[from] then from + 1
    else FirstFull(counts, limits, from + 1)
  }

  function Counts(store: Store, ks: seq<Key>, now: int): seq<int>
    requires |ks| == 4
  {
    seq(4, i requires 0 <= i < 4 => |Members(Get(store, ks[i]), now)|)
  }

  /** The reserve script: trim all four keys, refuse with the first full one, else record in all. */
  function ReserveScript(store: Store, ks: seq<Key>, limits: seq<int>, now: int, id: Id): (Store, nat)
    requires |ks| == |limits| == 4
  {
    var trimmed := TrimAll(store, ks, now);
    var reason := FirstFull(Counts(trimmed, ks, now), limits, 0);
    (if reason == 0 then AddAll(trimmed, ks, now, id) else trimmed, reason)
  }

  // ----- the naive record -----

  datatype Grant = Grant(ip: string, phone: string, at: int)

  type Log = map<Id, Grant>

  predicate Charges(g: Grant, k: Key) {
    match k
    case IpMinute(ip) => g.ip == ip
    case PhoneMinute(phone) => g.phone == phone
    case IpDay(ip) => g.ip == ip
    case PhoneDay(phone) => g.phone == phone
  }

  function GrantsOf(log: Log, k: Key): map<Id, int> {
    map id | id in log && Charges(log[id], k) :: log[id].at
  }

  function NaiveCounts(log: Log, ks: seq<Key>, now: int): seq<int>
    requires |ks| == 4
  {
    seq(4, i requires 0 <= i < 4 => |Recent(WindowOf(ks[i]), GrantsOf(log, ks[i]), now)|)
  }

  /** The decision a full record would give. */
  function NaiveReason(log: Log, ip: string, phone: string, p: Policy, now: int): nat {
    FirstFull(NaiveCounts(log, Keys(ip, phone), now), Limits(p), 0)
  }

  // ----- runs -----

  datatype Op =
    | Reserve(now: int, ip: string, phone: string, policy: Policy, id: Id)
    | Release(reservation: Reservation)

  /** What a call reports: nothing for a release, an error for a bad policy, else the reason index. */
  datatype Answer = NoAnswer | BadPolicy | Reason(index: nat)

  /** The keys together with the record of what they granted and kept. */
  datatype Quota = Quota(store: Store, log: Log)

  function Apply(q: Quota, op: Op): (Quota, Answer) {
    match op
    case Reserve(now, ip, phone, p, id) =>
      if !PolicyValid(p) then (q, BadPolicy)
      else
        var (store, reason) := ReserveScript(q.store, Keys(ip, phone), Limits(p), now, id);
        (Quota(store, if reason == 0 then q.log[id := Grant(ip, phone, now)] else q.log), Reason(reason))
    case Release(r) =>
      (Quota(RemoveAll(q.store, Keys(r.ip, r.phone), r.id), q.log - {r.id}), NoAnswer)
  }

  function NaiveApply(log: Log, op: Op): (Log, Answer) {
    match op
    case Reserve(now, ip, phone, p, id) =>
      if !PolicyValid(p) then (log, BadPolicy)
      else
        var reason := NaiveReason(log, ip, phone, p, now);
        (if reason == 0 then log[id := Grant(ip, phone, now)] else log, Reason(reason))
    case Release(r) => (log - {r.id}, NoAnswer)
  }

  function Run(q: Quota, ops: seq<Op>): Quota
    decreases |ops|
  {
    if ops == [] then q else Run(Apply(q, ops[0]).0, ops[1..])
  }

  function Answers(q: Quota, ops: seq<Op>): seq<Answer>
    decreases |ops|
  {
    if ops == [] then []
    else
      var (q', answer) := Apply(q, ops[0]);
      [answer] + Answers(q', ops[1..])
  }

  function NaiveAnswers(log: Log, ops: seq<Op>): seq<Answer>
    decreases |ops|
  {
    if ops == [] then []
    else
      var (log', answer) := NaiveApply(log, ops[0]);
      [answer] + NaiveAnswers(log', ops[1..])
  }

  const EMPTY := Quota(map[], map[])

  /** What has been handed out so far and the latest time seen. */
  datatype Past = Past(clock: int, known: map<Id, Reservation>)

  function Advance(past: Past, op: Op): Past {
    match op
    case Reserve(now, ip, phone, _, id) => Past(now, past.known[id := Reservation(id, ip, phone)])
    case Release(_) => past
  }

  /** Time does not go back, ids are fresh, and a release names a reservation of this run. */
  predicate Admissible(past: Past, op: Op) {
    match op
    case Reserve(now, _, _, _, id) => past.clock <= now && id !in past.known
    case Release(r) => r.id in past.known && past.known[r.id] == r
  }

  predicate AdmissibleRun(past: Past, ops: seq<Op>)
    decreases |ops|
  {
    ops == [] || (Admissible(past, ops[0]) && AdmissibleRun(Advance(past, ops[0]), ops[1..]))
  }

  function After(past: Past, ops: seq<Op>): Past
    decreases |ops|
  {
    if ops == [] then past else After(Advance(past, ops[0]), ops[1..])
  }

  // ----- the refinement -----

  ghost predicate Related(store: Store, log: Log, past: Past) {
    && (forall k: Key :: Tracks(WindowOf(k), Get(store, k), GrantsOf(log, k), past.clock))
    && (forall id | id in log :: id in past.known && log[id].at <= past.clock
          && past.known[id] == Reservation(id, log[id].ip, log[id].phone))
  }

  lemma GrantsOfAdd(log: Log, id: Id, g: Grant, k: Key)
    requires id !in log
    ensures GrantsOf(log[id := g], k) == if Charges(g, k) then GrantsOf(log, k)[id := g.at] else GrantsOf(log, k)
  {
  }

  lemma GrantsOfRemove(log: Log, id: Id, k: Key)
    ensures GrantsOf(log - {id}, k) == GrantsOf(log, k) - {id}
  {
  }

  lemma ChargesKeys(g: Grant, k: Key)
    ensures Charges(g, k) <==> k in Keys(g.ip, g.phone)
  {
    assert Keys(g.ip, g.phone)[0] == IpMinute(g.ip) && Keys(g.ip, g.phone)[1] == PhoneMinute(g.phone);
    assert Keys(g.ip, g.phone)[2] == IpDay(g.ip) && Keys(g.ip, g.phone)[3] == PhoneDay(g.phone);
  }

  lemma DeadlineCovers(k: Key, now: int, score: int)
    requires score <= now
    ensures Covered(WindowOf(k), DeadlineOf(k, now), score)
  {
    if WindowOf(k).Sliding? {
      SlidingCovered(MINUTE_MS, DeadlineOf(k, now), score);
    } else {
      DayCovered(now, score);
    }
  }

  lemma TrimAllRelated(store: Store, log: Log, past: Past, ks: seq<Key>, now: int)
    requires Related(store, log, past) && past.clock <= now && |ks| == 4
    ensures Related(TrimAll(store, ks, now), log, past.(clock := now))
    ensures Counts(TrimAll(store, ks, now), ks, now) == NaiveCounts(log, ks, now)
  {
    var trimmed := TrimAll(store, ks, now);
    forall k: Key
      ensures Tracks(WindowOf(k), Get(trimmed, k), GrantsOf(log, k), now)
      ensures k in ks ==> Members(Get(trimmed, k), now) == Recent(WindowOf(k), GrantsOf(log, k), now)
    {
      if k in ks {
        TrimTracks(WindowOf(k), Get(store, k), GrantsOf(log, k), past.clock, now);
      } else {
        TracksLater(WindowOf(k), Get(store, k), GrantsOf(log, k), past.clock, now);
      }
    }
  }

  lemma AddAllRelated(store: Store, log: Log, past: Past, r: Reservation)
    requires Related(store, log, past) && r.id !in past.known
    ensures Related(AddAll(store, Keys(r.ip, r.phone), past.clock, r.id),
                    log[r.id := Grant(r.ip, r.phone, past.clock)],
                    past.(known := past.known[r.id := r]))
  {
    var g := Grant(r.ip, r.phone, past.clock);
    var store' := AddAll(store, Keys(r.ip, r.phone), past.clock, r.id);
    forall k: Key
      ensures Tracks(WindowOf(k), Get(store', k), GrantsOf(log[r.id := g], k), past.clock)
    {
      GrantsOfAdd(log, r.id, g, k);
      ChargesKeys(g, k);
      if Charges(g, k) {
        var grants := GrantsOf(log, k);
        forall x | x in grants ensures Covered(WindowOf(k), DeadlineOf(k, past.clock), grants[x]) {
          DeadlineCovers(k, past.clock, grants[x]);
        }
        DeadlineCovers(k, past.clock, past.clock);
        AddTracks(WindowOf(k), Get(store, k), grants, past.clock, r.id, DeadlineOf(k, past.clock));
      }
    }
  }

  lemma RemoveAllRelated(store: Store, log: Log, past: Past, r: Reservation)
    requires Related(store, log, past) && r.id in past.known && past.known[r.id] == r
    ensures Related(RemoveAll(store, Keys(r.ip, r.phone), r.id), log - {r.id}, past)
  {
    var store' := RemoveAll(store, Keys(r.ip, r.phone), r.id);
    forall k: Key
      ensures Tracks(WindowOf(k), Get(store', k), GrantsOf(log - {r.id}, k), past.clock)
    {
      GrantsOfRemove(log, r.id, k);
      if k in Keys(r.ip, r.phone) {
        RemoveTracks(WindowOf(k), Get(store, k), GrantsOf(log, k), past.clock, r.id);
      } else {
        if r.id in GrantsOf(log, k) {
          ChargesKeys(log[r.id], k);
        }
        assert GrantsOf(log, k) - {r.id} == GrantsOf(log, k);
      }
    }
  }

  /** The reserve script decides as the record does, and starts by trimming. */
  lemma ReserveAnswers(q: Quota, past: Past, op: Op)
    requires op.Reserve? && PolicyValid(op.policy)
    requires Related(q.store, q.log, past) && Admissible(past, op)
    ensures var ks := Keys(op.ip, op.phone);
            var trimmed := TrimAll(q.store, ks, op.now);
            var reason := NaiveReason(q.log, op.ip, op.phone, op.policy, op.now);
            && Related(trimmed, q.log, past.(clock := op.now))
            && Apply(q, op) ==
               (if reason == 0
                then Quota(AddAll(trimmed, ks, op.now, op.id), q.log[op.id := Grant(op.ip, op.phone, op.now)])
                else Quota(trimmed, q.log), Reason(reason))
  {
    TrimAllRelated(q.store, q.log, past, Keys(op.ip, op.phone), op.now);
  }

  lemma AfterTrim(trimmed: Store, log: Log, past: Past, op: Op)
    requires op.Reserve? && Related(trimmed, log, past.(clock := op.now)) && Admissible(past, op)
    ensures Related(AddAll(trimmed, Keys(op.ip, op.phone), op.now, op.id),
                    log[op.id := Grant(op.ip, op.phone, op.now)], Advance(past, op))
    ensures Related(trimmed, log, Advance(past, op))
  {
    AddAllRelated(trimmed, log, past.(clock := op.now), Reservation(op.id, op.ip, op.phone));
    RelatedLater(trimmed, log, past.(clock := op.now), Advance(past, op));
  }

  lemma ReserveRelated(q: Quota, past: Past, op: Op)
    requires op.Reserve? && PolicyValid(op.policy)
    requires Related(q.store, q.log, past) && Admissible(past, op)
    ensures Apply(q, op).1 == NaiveApply(q.log, op).1
    ensures Apply(q, op).0.log == NaiveApply(q.log, op).0
    ensures Related(Apply(q, op).0.store, Apply(q, op).0.log, Advance(past, op))
  {
    ReserveAnswers(q, past, op);
    AfterTrim(TrimAll(q.store, Keys(op.ip, op.phone), op.now), q.log, past, op);
  }

  /** One call: the keys answer as the record does and stay related to it. */
  lemma ApplyRelated(q: Quota, past: Past, op: Op)
    requires Related(q.store, q.log, past) && Admissible(past, op)
    ensures Apply(q, op).1 == NaiveApply(q.log, op).1
    ensures Apply(q, op).0.log == NaiveApply(q.log, op).0
    ensures Related(Apply(q, op).0.store, Apply(q, op).0.log, Advance(past, op))
  {
    match op
    case Reserve(now, ip, phone, p, id) =>
      if PolicyValid(p) {
        ReserveRelated(q, past, op);
      } else {
        RelatedLater(q.store, q.log, past, Advance(past, op));
      }
    case Release(r) =>
      RemoveAllRelated(q.store, q.log, past, r);
  }

  lemma {:induction false} AnswersFrom(q: Quota, past: Past, ops: seq<Op>)
    requires Related(q.store, q.log, past) && AdmissibleRun(past, ops)
    ensures Answers(q, ops) == NaiveAnswers(q.log, ops)
    ensures Related(Run(q, ops).store, Run(q, ops).log, After(past, ops))
    decreases |ops|
  {
    if ops != [] {
      ApplyRelated(q, past, ops[0]);
      AnswersFrom(Apply(q, ops[0]).0, Advance(past, ops[0]), ops[1..]);
    }
  }

  lemma EmptyRelated(start: int)
    ensures Related(EMPTY.store, EMPTY.log, Past(start, map[]))
  {
  }

  /** Over every run the keys answer as the record does; `PlainQuota` says in plain terms what that is. */
  lemma AnswersAgree(ops: seq<Op>, start: int)
    requires AdmissibleRun(Past(start, map[]), ops)
    ensures Answers(EMPTY, ops) == NaiveAnswers(map[], ops)
  {
    EmptyRelated(start);
    AnswersFrom(EMPTY, Past(start, map[]), ops);
  }

  // ----- reserve then release -----

  lemma AddThenRemove(log: Log, id: Id, g: Grant)
    requires id !in log
    ensures log[id := g] - {id} == log
  {
  }

  /** The keys and the record after a reservation and its release. */
  function Undone(q: Quota, op: Op): Quota
    requires op.Reserve?
  {
    Apply(Apply(q, op).0, Release(Reservation(op.id, op.ip, op.phone))).0
  }

  lemma ReleaseGranted(granted: Quota, log: Log, past: Past, r: Reservation, at: int)
    requires Related(granted.store, granted.log, past) && r.id in past.known && past.known[r.id] == r
    requires r.id !in log && granted.log == log[r.id := Grant(r.ip, r.phone, at)]
    ensures var undone := Apply(granted, Release(r)).0; undone.log == log && Related(undone.store, undone.log, past)
  {
    AddThenRemove(log, r.id, Grant(r.ip, r.phone, at));
    RemoveAllRelated(granted.store, granted.log, past, r);
  }

  lemma UndoFrom(q: Quota, past: Past, op: Op)
    requires Related(q.store, q.log, past) && op.Reserve? && Admissible(past, op)
    ensures Apply(q, op).1 == Reason(0) ==>
              Undone(q, op).log == q.log && Related(Undone(q, op).store, Undone(q, op).log, Advance(past, op))
  {
    ApplyRelated(q, past, op);
    var (granted, answer) := Apply(q, op);
    if answer == Reason(0) {
      ReleaseGranted(granted, q.log, Advance(past, op), Reservation(op.id, op.ip, op.phone), op.now);
    }
  }

  /** Keys related to the same record give the same answers. */
  lemma SameRecordSameAnswers(a: Quota, b: Quota, past: Past, later: seq<Op>)
    requires a.log == b.log && Related(a.store, a.log, past) && Related(b.store, b.log, past)
    requires AdmissibleRun(past, later)
    ensures Answers(a, later) == Answers(b, later)
  {
    AnswersFrom(a, past, later);
    AnswersFrom(b, past, later);
  }

  lemma UndoAnswers(q: Quota, past: Past, op: Op, later: seq<Op>)
    requires Related(q.store, q.log, past) && op.Reserve? && Admissible(past, op)
    requires AdmissibleRun(Advance(past, op), later)
    ensures Apply(q, op).1 == Reason(0) ==> Answers(Undone(q, op), later) == Answers(q, later)
  {
    UndoFrom(q, past, op);
    RelatedLater(q.store, q.log, past, Advance(past, op));
    if Apply(q, op).1 == Reason(0) {
      SameRecordSameAnswers(Undone(q, op), q, Advance(past, op), later);
    }
  }

  /**
   Release is a true undo: after any run, a granted reservation that is released at once
   leaves every later sequence of calls with the answers it would have had without the pair,
   although trims, key removals and deadline changes have happened in between.
   */
  lemma ReleaseUndoesReserve(before: seq<Op>, start: int, op: Op, later: seq<Op>)
    requires AdmissibleRun(Past(start, map[]), before)
    requires op.Reserve? && Admissible(After(Past(start, map[]), before), op)
    requires AdmissibleRun(Advance(After(Past(start, map[]), before), op), later)
    ensures var q := Run(EMPTY, before);
            Apply(q, op).1 == Reason(0) ==> Answers(Undone(q, op), later) == Answers(q, later)
  {
    EmptyRelated(start);
    AnswersFrom(EMPTY, Past(start, map[]), before);
    UndoAnswers(Run(EMPTY, before), After(Past(start, map[]), before), op, later);
  }

  lemma RelatedLater(store: Store, log: Log, past: Past, past': Past)
    requires Related(store, log, past) && past.clock <= past'.clock
    requires forall id | id in past.known :: id in past'.known && past'.known[id] == past.known[id]
    ensures Related(store, log, past')
  {
    forall k: Key ensures Tracks(WindowOf(k), Get(store, k), GrantsOf(log, k), past'.clock) {
      TracksLater(WindowOf(k), Get(store, k), GrantsOf(log, k), past.clock, past'.clock);
    }
  }

  // ----- bounds -----

  predicate PoliciesWithin(ops: seq<Op>, p: Policy) {
    forall op | op in ops && op.Reserve? ::
      op.policy.ipMinute <= p.ipMinute && op.policy.phoneMinute <= p.phoneMinute
      && op.policy.ipDay <= p.ipDay && op.policy.phoneDay <= p.phoneDay
  }

  ghost predicate LogBounded(log: Log, p: Policy) {
    forall k: Key :: Bounded(WindowOf(k), GrantsOf(log, k), Limit(p, k))
  }

  lemma LimitAt(p: Policy, ip: string, phone: string, i: nat)
    requires i < 4
    ensures Limits(p)[i] == Limit(p, Keys(ip, phone)[i])
  {
  }

  /** A grant the record allowed keeps the window of every key it charges within the limit. */
  lemma GrantBounded(log: Log, op: Op, p: Policy, k: Key)
    requires op.Reserve? && op.id !in log && NaiveReason(log, op.ip, op.phone, op.policy, op.now) == 0
    requires Limit(op.policy, k) <= Limit(p, k) && Bounded(WindowOf(k), GrantsOf(log, k), Limit(p, k))
    requires forall id | id in log :: log[id].at <= op.now
    ensures Bounded(WindowOf(k), GrantsOf(log[op.id := Grant(op.ip, op.phone, op.now)], k), Limit(p, k))
  {
    var g := Grant(op.ip, op.phone, op.now);
    GrantsOfAdd(log, op.id, g, k);
    ChargesKeys(g, k);
    if Charges(g, k) {
      var i :| 0 <= i < 4 && Keys(op.ip, op.phone)[i] == k;
      LimitAt(op.policy, op.ip, op.phone, i);
      assert NaiveCounts(log, Keys(op.ip, op.phone), op.now)[i] < Limits(op.policy)[i];
      AddBounded(WindowOf(k), GrantsOf(log, k), op.now, op.id, Limit(p, k));
    }
  }

  lemma ReleaseBounded(log: Log, id: Id, p: Policy)
    requires LogBounded(log, p)
    ensures LogBounded(log - {id}, p)
  {
    forall k: Key ensures Bounded(WindowOf(k), GrantsOf(log - {id}, k), Limit(p, k)) {
      GrantsOfRemove(log, id, k);
      RemoveBounded(WindowOf(k), GrantsOf(log, k), id, Limit(p, k));
    }
  }

  /** The record's own step keeps every window within the limits. */
  lemma NaiveBounded(log: Log, op: Op, p: Policy)
    requires PoliciesWithin([op], p) && LogBounded(log, p)
    requires op.Reserve? ==> op.id !in log && forall id | id in log :: log[id].at <= op.now
    ensures LogBounded(NaiveApply(log, op).0, p)
  {
    assert op in [op];
    match op
    case Release(r) => ReleaseBounded(log, r.id, p);
    case Reserve(now, ip, phone, policy, id) =>
      if PolicyValid(policy) && NaiveReason(log, ip, phone, policy, now) == 0 {
        forall k: Key ensures Bounded(WindowOf(k), GrantsOf(log[id := Grant(ip, phone, now)], k), Limit(p, k)) {
          GrantBounded(log, op, p, k);
        }
      }
  }

  lemma ApplyBounded(q: Quota, past: Past, op: Op, p: Policy)
    requires Related(q.store, q.log, past) && Admissible(past, op)
    requires PoliciesWithin([op], p) && LogBounded(q.log, p)
    ensures LogBounded(Apply(q, op).0.log, p)
  {
    ApplyRelated(q, past, op);
    NaiveBounded(q.log, op, p);
  }

  lemma {:induction false} RunBounded(q: Quota, past: Past, ops: seq<Op>, p: Policy)
    requires Related(q.store, q.log, past) && AdmissibleRun(past, ops)
    requires PoliciesWithin(ops, p) && LogBounded(q.log, p)
    ensures LogBounded(Run(q, ops).log, p)
    decreases |ops|
  {
    if ops != [] {
      ApplyRelated(q, past, ops[0]);
      ApplyBounded(q, past, ops[0], p);
      RunBounded(Apply(q, ops[0]).0, Advance(past, ops[0]), ops[1..], p);
    }
  }

  /** After every run no key's window, wherever it ends, holds more than its limit. */
  lemma WindowsStayBounded(ops: seq<Op>, start: int, p: Policy)
    requires AdmissibleRun(Past(start, map[]), ops) && PoliciesWithin(ops, p) && PolicyValid(p)
    ensures forall k: Key :: Bounded(WindowOf(k), GrantsOf(Run(EMPTY, ops).log, k), Limit(p, k))
  {
    EmptyRelated(start);
    forall k: Key ensures Bounded(WindowOf(k), GrantsOf(EMPTY.log, k), Limit(p, k)) {
      forall t: int ensures |Within(WindowOf(k), GrantsOf(EMPTY.log, k), t)| <= Limit(p, k) {
        assert Within(WindowOf(k), GrantsOf(EMPTY.log, k), t) == {};
      }
    }
    RunBounded(EMPTY, Past(start, map[]), ops, p);
  }
}
