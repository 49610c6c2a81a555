/** The quota as the service runs it: one shared store, changed in place by the two scripts. */
module SmsLimit {
  import opened Windows
  import opened SmsQuota

  datatype Outcome = Failed | Refused(reason: nat) | Granted(reservation: Reservation)

  ghost predicate Distinct(ks: seq<Key>) {
    forall i, j :: 0 <= i < j < |ks| ==> ks[i] != ks[j]
  }

  lemma PrefixKeys(ks: seq<Key>, i: nat)
    requires i < |ks| && Distinct(ks)
    ensures ks[i] !in ks[..i]
    ensures forall k :: k in ks[..i + 1] <==> k in ks[..i] || k == ks[i]
  {
    assert ks[..i + 1] == ks[..i] + [ks[i]];
  }

  lemma TrimOneMore(store: Store, ks: seq<Key>, i: nat, now: int)
    requires i < |ks| && Distinct(ks)
    ensures var done := TrimAll(store, ks[..i], now);
            TrimAll(store, ks[..i + 1], now)
            == done[ks[i] := Trim(Get(done, ks[i]), now, Cutoff(WindowOf(ks[i]), now))]
  {
    PrefixKeys(ks, i);
    TrimAllAt(store, ks[..i], now);
    TrimAllAt(store, ks[..i + 1], now);
    SameStore(TrimAll(store, ks[..i + 1], now), TrimAll(store, ks[..i], now), ks[i], TrimmedKey(store, ks[i], now));
  }

  lemma TrimAllAt(store: Store, ks: seq<Key>, now: int)
    ensures var trimmed := TrimAll(store, ks, now);
            && (forall k :: k in trimmed <==> k in store || k in ks)
            && (forall k | k in trimmed :: trimmed[k] == if k in ks then TrimmedKey(store, k, now) else store[k])
  {
  }

  lemma SameStore(more: Store, done: Store, key: Key, value: ZKey)
    requires forall k :: k in more <==> k in done || k == key
    requires forall k | k in more :: more[k] == if k == key then value else done[k]
    ensures more == done[key := value]
  {
  }

  lemma AddOneMore(store: Store, ks: seq<Key>, i: nat, now: int, id: Id)
    requires i < |ks| && Distinct(ks)
    ensures var done := AddAll(store, ks[..i], now, id);
            AddAll(store, ks[..i + 1], now, id)
            == done[ks[i] := Add(Get(done, ks[i]), now, id, DeadlineOf(ks[i], now))]
  {
    PrefixKeys(ks, i);
  }

  lemma RemoveOneMore(store: Store, ks: seq<Key>, i: nat, id: Id)
    requires i < |ks| && Distinct(ks)
    ensures var done := RemoveAll(store, ks[..i], id);
            RemoveAll(store, ks[..i + 1], id) == done[ks[i] := Remove(Get(done, ks[i]), id)]
  {
    PrefixKeys(ks, i);
  }

  /** The members of a key that are visible at `now` and less than a minute old. */
  ghost function InMinute(store: Store, k: Key, now: int): set<Id> {
    if k in store && store[k].Present? && now <= store[k].deadline
    then set id | id in store[k].members && now - 60000 < store[k].members[id] else {}
  }

  /** The members of a key that are visible at `now` and not from an earlier UTC+8 day. */
  ghost function OnThisDay(store: Store, k: Key, now: int): set<Id> {
    if k in store && store[k].Present? && now <= store[k].deadline
    then set id | id in store[k].members && (now + 28800000) / 86400000 <= (store[k].members[id] + 28800000) / 86400000
    else {}
  }

  /** The first full key, in the order IP minute, phone minute, IP day, phone day; 0 for none. */
  ghost function KeyReason(store: Store, ip: string, phone: string, p: Policy, now: int): nat {
    if p.ipMinute <= |InMinute(store, IpMinute(ip), now)| then 1
    else if p.phoneMinute <= |InMinute(store, PhoneMinute(phone), now)| then 2
    else if p.ipDay <= |OnThisDay(store, IpDay(ip), now)| then 3
    else if p.phoneDay <= |OnThisDay(store, PhoneDay(phone), now)| then 4
    else 0
  }

  lemma MinuteTrimmed(store: Store, k: Key, now: int)
    requires k.IpMinute? || k.PhoneMinute?
    ensures Members(TrimmedKey(store, k, now), now).Keys == InMinute(store, k, now)
  {
  }

  lemma DayNotBefore(at: int, now: int)
    ensures DayStart(now) <= at <==> (now + 28800000) / 86400000 <= (at + 28800000) / 86400000
  {
    var p, q := (at + 28800000) / 86400000, (now + 28800000) / 86400000;
    if q <= p {
      assert q * 86400000 <= p * 86400000;
    } else {
      assert (p + 1) * 86400000 <= q * 86400000;
    }
  }

  lemma DayTrimmed(store: Store, k: Key, now: int)
    requires k.IpDay? || k.PhoneDay?
    ensures Members(TrimmedKey(store, k, now), now).Keys == OnThisDay(store, k, now)
  {
    var seen := Members(Get(store, k), now);
    forall id | id in seen
      ensures DayStart(now) <= seen[id] <==> (now + 28800000) / 86400000 <= (seen[id] + 28800000) / 86400000
    {
      DayNotBefore(seen[id], now);
    }
  }

  lemma FirstFullMeans(counts: seq<int>, limits: seq<int>)
    requires |counts| == |limits| == 4
    ensures FirstFull(counts, limits, 0) ==
            if limits[0] <= counts[0] then 1
            else if limits[1] <= counts[1] then 2
            else if limits[2] <= counts[2] then 3
            else if limits[3] <= counts[3] then 4
            else 0
  {
  }

  lemma KeyCounts(store: Store, ip: string, phone: string, now: int)
    ensures var counts := Counts(TrimAll(store, Keys(ip, phone), now), Keys(ip, phone), now);
            && counts[0] == |InMinute(store, IpMinute(ip), now)|
            && counts[1] == |InMinute(store, PhoneMinute(phone), now)|
            && counts[2] == |OnThisDay(store, IpDay(ip), now)|
            && counts[3] == |OnThisDay(store, PhoneDay(phone), now)|
  {
    MinuteTrimmed(store, IpMinute(ip), now);
    MinuteTrimmed(store, PhoneMinute(phone), now);
    DayTrimmed(store, IpDay(ip), now);
    DayTrimmed(store, PhoneDay(phone), now);
    TrimmedCounts(store, ip, phone, now);
  }

  /** The reserve script's verdict, told from what the keys hold. */
  lemma ScriptDecides(store: Store, ip: string, phone: string, p: Policy, now: int, id: Id)
    ensures ReserveScript(store, Keys(ip, phone), Limits(p), now, id).1 == KeyReason(store, ip, phone, p, now)
  {
    KeyCounts(store, ip, phone, now);
    FirstFullMeans(Counts(TrimAll(store, Keys(ip, phone), now), Keys(ip, phone), now), Limits(p));
  }

  lemma TrimmedCounts(store: Store, ip: string, phone: string, now: int)
    ensures var counts := Counts(TrimAll(store, Keys(ip, phone), now), Keys(ip, phone), now);
            && counts[0] == |Members(TrimmedKey(store, IpMinute(ip), now), now).Keys|
            && counts[1] == |Members(TrimmedKey(store, PhoneMinute(phone), now), now).Keys|
            && counts[2] == |Members(TrimmedKey(store, IpDay(ip), now), now).Keys|
            && counts[3] == |Members(TrimmedKey(store, PhoneDay(phone), now), now).Keys|
  {
    var ks := Keys(ip, phone);
    forall i | 0 <= i < 4
      ensures Get(TrimAll(store, ks, now), ks[i]) == TrimmedKey(store, ks[i], now)
    {
      assert ks[i] in ks;
    }
    assert ks[0] == IpMinute(ip) && ks[1] == PhoneMinute(phone) && ks[2] == IpDay(ip) && ks[3] == PhoneDay(phone);
  }

  class Limit {
    var store: Store

    constructor ()
      ensures store == map[]
    {
      store := map[];
    }

    /** ZREMRANGEBYSCORE on every key. */
    method TrimKeys(ks: seq<Key>, now: int)
      requires Distinct(ks)
      modifies this
      ensures store == TrimAll(old(store), ks, now)
    {
      ghost var before := store;
      for i := 0 to |ks|
        invariant store == TrimAll(before, ks[..i], now)
      {
        var k := ks[i];
        TrimOneMore(before, ks, i, now);
        store := store[k := Trim(Get(store, k), now, Cutoff(WindowOf(k), now))];
      }
      assert ks[..|ks|] == ks;
    }

    /** ZCARD against the limit, key by key, stopping at the first full one. */
    method FindFull(ks: seq<Key>, limits: seq<int>, now: int) returns (reason: nat)
      requires |ks| == |limits| == 4
      ensures reason == FirstFull(Counts(store, ks, now), limits, 0)
    {
      ghost var counts := Counts(store, ks, now);
      for i := 0 to 4
        invariant FirstFull(counts, limits, 0) == FirstFull(counts, limits, i)
      {
        if limits[i] <= |Members(Get(store, ks[i]), now)| {
          return i + 1;
        }
      }
      reason := 0;
    }

    /** ZADD and the new deadline on every key. */
    method AddToKeys(ks: seq<Key>, now: int, id: Id)
      requires Distinct(ks)
      modifies this
      ensures store == AddAll(old(store), ks, now, id)
    {
      ghost var before := store;
      for i := 0 to |ks|
        invariant store == AddAll(before, ks[..i], now, id)
      {
        var k := ks[i];
        AddOneMore(before, ks, i, now, id);
        store := store[k := Add(Get(store, k), now, id, DeadlineOf(k, now))];
      }
      assert ks[..|ks|] == ks;
    }

    /** The reserve script. Its whole effect is `ReserveScript`. */
    method RunReserve(ks: seq<Key>, limits: seq<int>, now: int, id: Id) returns (reason: nat)
      requires |ks| == |limits| == 4 && Distinct(ks)
      modifies this
      ensures (store, reason) == ReserveScript(old(store), ks, limits, now, id)
    {
      TrimKeys(ks, now);
      reason := FindFull(ks, limits, now);
      if reason == 0 {
        AddToKeys(ks, now, id);
      }
    }

    /** The release script: ZREM on every key. */
    method RunRelease(ks: seq<Key>, id: Id)
      requires Distinct(ks)
      modifies this
      ensures store == RemoveAll(old(store), ks, id)
    {
      ghost var before := store;
      for i := 0 to |ks|
        invariant store == RemoveAll(before, ks[..i], id)
      {
        RemoveOneMore(before, ks, i, id);
        store := store[ks[i] := Remove(Get(store, ks[i]), id)];
      }
      assert ks[..|ks|] == ks;
    }

    /**
     `reachable` is whether Redis answered; a call that cannot reach it changes nothing.
     Otherwise the call is the reserve script on the four keys of this IP and phone.
     */
    method Reserve(ip: string, phone: string, p: Policy, now: int, id: Id, reachable: bool) returns (r: Outcome)
      modifies this
      ensures !PolicyValid(p) || !reachable ==> r == Failed && store == old(store)
      ensures PolicyValid(p) && reachable ==> !r.Failed?
      ensures r.Granted? ==> r.reservation == Reservation(id, ip, phone)
      ensures !r.Failed? ==> (store, if r.Granted? then 0 else r.reason)
                             == ReserveScript(old(store), Keys(ip, phone), Limits(p), now, id)
      ensures r.Refused? ==> 1 <= r.reason <= 4
      ensures r.Refused? ==> r.reason == KeyReason(old(store), ip, phone, p, now)
      ensures r.Granted? ==> KeyReason(old(store), ip, phone, p, now) == 0
    {
      if !PolicyValid(p) || !reachable {
        return Failed;
      }
      ScriptDecides(store, ip, phone, p, now, id);
      var reason := RunReserve(Keys(ip, phone), Limits(p), now, id);
      r := if reason == 0 then Granted(Reservation(id, ip, phone)) else Refused(reason);
    }

    method Release(r: Reservation, reachable: bool) returns (ok: bool)
      modifies this
      ensures ok == reachable
      ensures store == if reachable then RemoveAll(old(store), Keys(r.ip, r.phone), r.id) else old(store)
    {
      if reachable {
        RunRelease(Keys(r.ip, r.phone), r.id);
      }
      ok := reachable;
    }
  }
}
