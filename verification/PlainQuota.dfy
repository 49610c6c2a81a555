/**
 What the SMS quota decides, told from the record of unreleased grants alone: which grants count, over
 which times, against which limit and in which order. Nothing here is shared with the scripts'
 windows, keys or limits; the theorems tie the two together.
 */
module PlainQuota {
  import opened Windows
  import Q = SmsQuota

  /** The UTC+8 calendar day a time falls on. */
  function DayOf(t: int): int {
    (t + 28800000) / 86400000
  }

  ghost function IpInMinute(log: Q.Log, ip: string, t: int): set<Id> {
    set id | id in log && log[id].ip == ip && t - 60000 < log[id].at <= t
  }

  ghost function PhoneInMinute(log: Q.Log, phone: string, t: int): set<Id> {
    set id | id in log && log[id].phone == phone && t - 60000 < log[id].at <= t
  }

  ghost function IpOnDay(log: Q.Log, ip: string, day: int): set<Id> {
    set id | id in log && log[id].ip == ip && DayOf(log[id].at) == day
  }

  ghost function PhoneOnDay(log: Q.Log, phone: string, day: int): set<Id> {
    set id | id in log && log[id].phone == phone && DayOf(log[id].at) == day
  }

  /** The first exhausted allowance, in the order IP minute, phone minute, IP day, phone day; 0 for none. */
  ghost function Reason(log: Q.Log, ip: string, phone: string, p: Q.Policy, now: int): nat {
    if p.ipMinute <= |IpInMinute(log, ip, now)| then 1
    else if p.phoneMinute <= |PhoneInMinute(log, phone, now)| then 2
    else if p.ipDay <= |IpOnDay(log, ip, DayOf(now))| then 3
    else if p.phoneDay <= |PhoneOnDay(log, phone, DayOf(now))| then 4
    else 0
  }

  ghost function Decide(log: Q.Log, op: Q.Op): (Q.Log, Q.Answer) {
    match op
    case Reserve(now, ip, phone, p, id) =>
      if p.ipMinute <= 0 || p.phoneMinute <= 0 || p.ipDay <= 0 || p.phoneDay <= 0 then (log, Q.BadPolicy)
      else
        var reason := Reason(log, ip, phone, p, now);
        (if reason == 0 then log[id := Q.Grant(ip, phone, now)] else log, Q.Reason(reason))
    case Release(r) => (log - {r.id}, Q.NoAnswer)
  }

  ghost function Decisions(log: Q.Log, ops: seq<Q.Op>): seq<Q.Answer>
    decreases |ops|
  {
    if ops == [] then [] else [Decide(log, ops[0]).1] + Decisions(Decide(log, ops[0]).0, ops[1..])
  }

  /** The record after a run. */
  ghost function Record(log: Q.Log, ops: seq<Q.Op>): Q.Log
    decreases |ops|
  {
    if ops == [] then log else Record(Decide(log, ops[0]).0, ops[1..])
  }

  // ----- the scripts' windows in plain terms -----

  lemma DayMeans(at: int, now: int)
    requires at <= now
    ensures DayStart(now) <= at <==> DayOf(at) == DayOf(now)
  {
    var p, q := (at + 28800000) / 86400000, (now + 28800000) / 86400000;
    assert p <= q by {
      DayStartMonotone(at, now);
    }
    assert DayStart(at) == p * 86400000 - 28800000 && DayStart(now) == q * 86400000 - 28800000;
  }

  /** Every grant was made at or before `now`. */
  ghost predicate Before(log: Q.Log, now: int) {
    forall id | id in log :: log[id].at <= now
  }

  lemma MinuteCounts(log: Q.Log, ip: string, phone: string, now: int)
    requires Before(log, now)
    ensures Recent(Q.WindowOf(Q.IpMinute(ip)), Q.GrantsOf(log, Q.IpMinute(ip)), now).Keys == IpInMinute(log, ip, now)
    ensures Recent(Q.WindowOf(Q.PhoneMinute(phone)), Q.GrantsOf(log, Q.PhoneMinute(phone)), now).Keys ==
            PhoneInMinute(log, phone, now)
  {
  }

  lemma DayCounts(log: Q.Log, ip: string, phone: string, now: int)
    requires Before(log, now)
    ensures Recent(Q.WindowOf(Q.IpDay(ip)), Q.GrantsOf(log, Q.IpDay(ip)), now).Keys == IpOnDay(log, ip, DayOf(now))
    ensures Recent(Q.WindowOf(Q.PhoneDay(phone)), Q.GrantsOf(log, Q.PhoneDay(phone)), now).Keys ==
            PhoneOnDay(log, phone, DayOf(now))
  {
    forall id | id in log ensures DayStart(now) <= log[id].at <==> DayOf(log[id].at) == DayOf(now) {
      DayMeans(log[id].at, now);
    }
  }

  lemma ReasonsAgree(log: Q.Log, ip: string, phone: string, p: Q.Policy, now: int)
    requires Before(log, now)
    ensures Q.NaiveReason(log, ip, phone, p, now) == Reason(log, ip, phone, p, now)
  {
    MinuteCounts(log, ip, phone, now);
    DayCounts(log, ip, phone, now);
    var counts := Q.NaiveCounts(log, Q.Keys(ip, phone), now);
    assert counts[0] == |IpInMinute(log, ip, now)| && counts[1] == |PhoneInMinute(log, phone, now)|;
    assert counts[2] == |IpOnDay(log, ip, DayOf(now))| && counts[3] == |PhoneOnDay(log, phone, DayOf(now))|;
  }

  ghost predicate Known(log: Q.Log, past: Q.Past) {
    Before(log, past.clock) && forall id | id in log :: id in past.known
  }

  lemma DecideAgrees(log: Q.Log, past: Q.Past, op: Q.Op)
    requires Known(log, past) && Q.Admissible(past, op)
    ensures Decide(log, op) == Q.NaiveApply(log, op) && Known(Decide(log, op).0, Q.Advance(past, op))
  {
    if op.Reserve? {
      ReasonsAgree(log, op.ip, op.phone, op.policy, op.now);
    }
  }

  lemma {:induction false} DecisionsAgree(log: Q.Log, past: Q.Past, ops: seq<Q.Op>)
    requires Known(log, past) && Q.AdmissibleRun(past, ops)
    ensures Decisions(log, ops) == Q.NaiveAnswers(log, ops)
    decreases |ops|
  {
    if ops != [] {
      DecideAgrees(log, past, ops[0]);
      DecisionsAgree(Decide(log, ops[0]).0, Q.Advance(past, ops[0]), ops[1..]);
    }
  }

  lemma {:induction false} RecordAgrees(q: Q.Quota, past: Q.Past, ops: seq<Q.Op>)
    requires Q.Related(q.store, q.log, past) && Known(q.log, past) && Q.AdmissibleRun(past, ops)
    ensures Q.Run(q, ops).log == Record(q.log, ops)
    decreases |ops|
  {
    if ops != [] {
      Q.ApplyRelated(q, past, ops[0]);
      DecideAgrees(q.log, past, ops[0]);
      RecordAgrees(Q.Apply(q, ops[0]).0, Q.Advance(past, ops[0]), ops[1..]);
    }
  }

  // ----- theorems -----

  /**
   Quota refinement: for every run of reserve and release calls, the four expiring and trimmed keys
   give exactly the decisions and reason indices told here from the full record, which is
   the record the bounds below are about.
   */
  lemma QuotaRefinesLog(ops: seq<Q.Op>, start: int)
    requires Q.AdmissibleRun(Q.Past(start, map[]), ops)
    ensures Q.Answers(Q.EMPTY, ops) == Decisions(map[], ops)
    ensures Q.Run(Q.EMPTY, ops).log == Record(map[], ops)
  {
    Q.AnswersAgree(ops, start);
    DecisionsAgree(map[], Q.Past(start, map[]), ops);
    Q.EmptyRelated(start);
    RecordAgrees(Q.EMPTY, Q.Past(start, map[]), ops);
  }

  /** After every run the next request under the service's policy is decided by 10 and 1 a minute, 50 and 5 a day. */
  lemma SendDecides(ops: seq<Q.Op>, start: int, now: int, ip: string, phone: string, id: Id)
    requires Q.AdmissibleRun(Q.Past(start, map[]), ops)
    requires Q.Admissible(Q.After(Q.Past(start, map[]), ops), Q.Reserve(now, ip, phone, Q.SEND_POLICY, id))
    ensures var q := Q.Run(Q.EMPTY, ops);
            Q.Apply(q, Q.Reserve(now, ip, phone, Q.SEND_POLICY, id)).1 ==
            Q.Reason(Reason(q.log, ip, phone, Q.Policy(10, 1, 50, 5), now))
  {
    var q, past := Q.Run(Q.EMPTY, ops), Q.After(Q.Past(start, map[]), ops);
    Q.EmptyRelated(start);
    Q.AnswersFrom(Q.EMPTY, Q.Past(start, map[]), ops);
    Q.ApplyRelated(q, past, Q.Reserve(now, ip, phone, Q.SEND_POLICY, id));
    ReasonsAgree(q.log, ip, phone, Q.SEND_POLICY, now);
  }

  lemma MinuteBounded(log: Q.Log, ip: string, phone: string, p: Q.Policy, t: int)
    requires Q.LogBounded(log, p)
    ensures |IpInMinute(log, ip, t)| <= p.ipMinute && |PhoneInMinute(log, phone, t)| <= p.phoneMinute
  {
    var i, k := Q.IpMinute(ip), Q.PhoneMinute(phone);
    assert Bounded(Q.WindowOf(i), Q.GrantsOf(log, i), p.ipMinute);
    assert Bounded(Q.WindowOf(k), Q.GrantsOf(log, k), p.phoneMinute);
    SubsetSize(IpInMinute(log, ip, t), Within(Q.WindowOf(i), Q.GrantsOf(log, i), t));
    SubsetSize(PhoneInMinute(log, phone, t), Within(Q.WindowOf(k), Q.GrantsOf(log, k), t));
  }

  /** The last instant of a day: every time of that day lies between its start and this. */
  lemma LastInstant(day: int, at: int)
    requires DayOf(at) == day
    ensures var last := day * 86400000 + 86400000 - 28800000 - 1; DayStart(last) <= at <= last
  {
    var last := day * 86400000 + 86400000 - 28800000 - 1;
    assert last + 28800000 == day * 86400000 + 86399999;
    assert DayOf(last) == day;
    DayMeans(at, last);
  }

  lemma DayBounded(log: Q.Log, ip: string, phone: string, p: Q.Policy, day: int)
    requires Q.LogBounded(log, p)
    ensures |IpOnDay(log, ip, day)| <= p.ipDay && |PhoneOnDay(log, phone, day)| <= p.phoneDay
  {
    var last := day * 86400000 + 86400000 - 28800000 - 1;
    var i, k := Q.IpDay(ip), Q.PhoneDay(phone);
    assert Bounded(Q.WindowOf(i), Q.GrantsOf(log, i), p.ipDay);
    assert Bounded(Q.WindowOf(k), Q.GrantsOf(log, k), p.phoneDay);
    forall id | id in log && DayOf(log[id].at) == day ensures DayStart(last) <= log[id].at <= last {
      LastInstant(day, log[id].at);
    }
    SubsetSize(IpOnDay(log, ip, day), Within(Q.WindowOf(i), Q.GrantsOf(log, i), last));
    SubsetSize(PhoneOnDay(log, phone, day), Within(Q.WindowOf(k), Q.GrantsOf(log, k), last));
  }

  /** Every minute, wherever it ends, and every calendar day of every IP and phone is within the policy. */
  ghost predicate WithinPolicy(log: Q.Log, p: Q.Policy) {
    && (forall ip: string, t: int :: |IpInMinute(log, ip, t)| <= p.ipMinute)
    && (forall phone: string, t: int :: |PhoneInMinute(log, phone, t)| <= p.phoneMinute)
    && (forall ip: string, day: int :: |IpOnDay(log, ip, day)| <= p.ipDay)
    && (forall phone: string, day: int :: |PhoneOnDay(log, phone, day)| <= p.phoneDay)
  }

  lemma BoundedIsWithin(log: Q.Log, p: Q.Policy)
    requires Q.LogBounded(log, p)
    ensures WithinPolicy(log, p)
  {
    forall who: string, t: int
      ensures |IpInMinute(log, who, t)| <= p.ipMinute && |PhoneInMinute(log, who, t)| <= p.phoneMinute
      ensures |IpOnDay(log, who, t)| <= p.ipDay && |PhoneOnDay(log, who, t)| <= p.phoneDay
    {
      MinuteBounded(log, who, who, p, t);
      DayBounded(log, who, who, p, t);
    }
  }

  /** Quota bounds: after every run whose calls stay within a policy, so does the record. */
  lemma QuotaBounds(ops: seq<Q.Op>, start: int, p: Q.Policy)
    requires Q.AdmissibleRun(Q.Past(start, map[]), ops) && Q.PoliciesWithin(ops, p) && Q.PolicyValid(p)
    ensures WithinPolicy(Q.Run(Q.EMPTY, ops).log, p)
  {
    Q.WindowsStayBounded(ops, start, p);
    BoundedIsWithin(Q.Run(Q.EMPTY, ops).log, p);
  }

  /**
   With the policy the service passes: two unreleased grants of one phone are at least 60000 ms
   apart and at most five fall on one calendar day; of one IP, at most 10 fall in any minute
   and at most 50 on one day.
   */
  lemma SendPolicyBounds(ops: seq<Q.Op>, start: int)
    requires Q.AdmissibleRun(Q.Past(start, map[]), ops)
    requires forall op | op in ops && op.Reserve? :: op.policy == Q.SEND_POLICY
    ensures var log := Q.Run(Q.EMPTY, ops).log;
            && WithinPolicy(log, Q.Policy(10, 1, 50, 5))
            && (forall a, b | a in log && b in log && a != b && log[a].phone == log[b].phone ::
                  log[a].at + 60000 <= log[b].at || log[b].at + 60000 <= log[a].at)
  {
    var log := Q.Run(Q.EMPTY, ops).log;
    QuotaBounds(ops, start, Q.SEND_POLICY);
    forall a, b | a in log && b in log && a != b && log[a].phone == log[b].phone
      ensures log[a].at + 60000 <= log[b].at || log[b].at + 60000 <= log[a].at
    {
      SpacedApart(log, a, b);
      SpacedApart(log, b, a);
    }
  }

  lemma SpacedApart(log: Q.Log, a: Id, b: Id)
    requires a in log && b in log && a != b && log[a].phone == log[b].phone
    requires |PhoneInMinute(log, log[b].phone, log[b].at)| <= 1
    ensures log[a].at <= log[b].at ==> log[a].at + 60000 <= log[b].at
  {
    if log[b].at - 60000 < log[a].at <= log[b].at {
      SubsetSize({a, b}, PhoneInMinute(log, log[b].phone, log[b].at));
    }
  }

  /** The deadlines a grant leaves: a minute for the minute keys, the next UTC+8 midnight for the day keys. */
  lemma GrantDeadlines(k: Q.Key, now: int)
    ensures k.IpMinute? || k.PhoneMinute? ==> Q.DeadlineOf(k, now) == now + 60000
    ensures k.IpDay? || k.PhoneDay? ==>
              now < Q.DeadlineOf(k, now) <= now + 86400000 && (Q.DeadlineOf(k, now) + 28800000) % 86400000 == 0
  {
    if k.IpDay? || k.PhoneDay? {
      var day := (now + 28800000) / 86400000;
      assert Q.DeadlineOf(k, now) + 28800000 == (day + 1) * 86400000;
      MultipleOfDay(day + 1);
    }
  }

  lemma MultipleOfDay(n: int)
    ensures (n * 86400000) % 86400000 == 0
  {
  }
}
