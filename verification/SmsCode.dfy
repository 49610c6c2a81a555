/**
 SMS codes: `SendCode` (reserve quota, store the code, give the quota back when storing failed)
 and `VerifyCode`, as interleaved steps of any number of calls over one code store.

 `latest`, `issued` and `compares` are history: the last code stored for each phone, every code
 ever stored and every comparison ever made. Nothing the scripts do depends on them; they
 are what the theorems are about.
 */
module SmsCode {
  import opened Windows
  import Q = SmsQuota
  import P = PlainQuota

  const MAX_ATTEMPTS := 3
  const CODE_TTL_MS := 5 * 60 * 1000

  datatype CodeRec = CodeRec(code: string, attempts: nat, deadline: int)

  type Codes = map<string, CodeRec>

  predicate HasCode(codes: Codes, phone: string, now: int) {
    phone in codes && now <= codes[phone].deadline
  }

  function SetScript(codes: Codes, phone: string, code: string, now: int, ttl: nat): Codes {
    codes[phone := CodeRec(code, 0, now + ttl)]
  }

  /** 1 on a match, -1 when the last attempt is used up, 0 otherwise. */
  function ConsumeScript(codes: Codes, phone: string, guess: string, now: int): (Codes, int) {
    if !HasCode(codes, phone, now) then (codes, 0)
    else if codes[phone].code == guess then (codes - {phone}, 1)
    else
      var attempts := codes[phone].attempts + 1;
      if MAX_ATTEMPTS <= attempts then (codes - {phone}, -1)
      else (codes[phone := codes[phone].(attempts := attempts)], 0)
  }

  // ----- the running service -----

  /** Where a `SendCode` call that got its reservation stands. */
  datatype Phase = Reserved | Stored | SetFailed | Returned | Kept

  datatype Sender = Sender(phone: string, phase: Phase)

  datatype Issued = Issued(phone: string, code: string, at: int)

  datatype Compare = Compare(phone: string, grant: Id, matched: bool)

  /** The quota keys, and the calls and codes beside them. */
  datatype Desk = Desk(
    senders: map<Id, Sender>, codes: Codes,
    latest: map<string, Id>, issued: map<Id, Issued>, compares: seq<Compare>)

  datatype Sms = Sms(quota: Q.Quota, past: Q.Past, desk: Desk)

  /**
   `ok` is whether the call reported success; `wrote` matters only when it did not: whether the
   script took effect all the same.
   */
  datatype Step =
    | ReserveStep(now: int, ip: string, phone: string, id: Id)
    | StoreStep(now: int, id: Id, code: string, ok: bool, wrote: bool)
    | ReleaseStep(id: Id, ok: bool, wrote: bool)
    | VerifyStep(now: int, phone: string, guess: string)

  const START := Sms(Q.EMPTY, Q.Past(0, map[]), Desk(map[], map[], map[], map[], []))

  predicate At(d: Desk, id: Id, phase: Phase) {
    id in d.senders && d.senders[id].phase == phase
  }

  function Move(d: Desk, id: Id, phase: Phase): Desk
    requires id in d.senders
  {
    d.(senders := d.senders[id := d.senders[id].(phase := phase)])
  }

  function OpenCall(d: Desk, id: Id, phone: string): Desk {
    d.(senders := d.senders[id := Sender(phone, Reserved)])
  }

  function StoreCode(d: Desk, id: Id, code: string, ok: bool, wrote: bool, now: int): Desk
    requires At(d, id, Reserved)
  {
    var phone := d.senders[id].phone;
    var d' := Move(d, id, if ok then Stored else SetFailed);
    if !ok && !wrote then d'
    else
      d'.(codes := SetScript(d.codes, phone, code, now, CODE_TTL_MS),
          latest := d.latest[phone := id],
          issued := d.issued[id := Issued(phone, code, now)])
  }

  function VerifyCode(d: Desk, phone: string, guess: string, now: int): Desk {
    var (codes, result) := ConsumeScript(d.codes, phone, guess, now);
    d.(codes := codes,
       compares := if HasCode(d.codes, phone, now) && phone in d.latest
                   then d.compares + [Compare(phone, d.latest[phone], result == 1)] else d.compares)
  }

  /** A step that is not possible in `s` leaves it unchanged. */
  function Apply(s: Sms, e: Step): Sms {
    match e
    case ReserveStep(now, ip, phone, id) =>
      var op := Q.Reserve(now, ip, phone, Q.SEND_POLICY, id);
      if !Q.Admissible(s.past, op) then s
      else
        var (quota, answer) := Q.Apply(s.quota, op);
        Sms(quota, Q.Advance(s.past, op), if answer == Q.Reason(0) then OpenCall(s.desk, id, phone) else s.desk)
    case StoreStep(now, id, code, ok, wrote) =>
      if !At(s.desk, id, Reserved) || now < s.past.clock then s
      else s.(past := s.past.(clock := now), desk := StoreCode(s.desk, id, code, ok, wrote, now))
    case ReleaseStep(id, ok, wrote) =>
      if !At(s.desk, id, SetFailed) || id !in s.past.known then s
      else if ok || wrote then
        s.(quota := Q.Apply(s.quota, Q.Release(s.past.known[id])).0, desk := Move(s.desk, id, Returned))
      else s.(desk := Move(s.desk, id, Kept))
    case VerifyStep(now, phone, guess) =>
      if now < s.past.clock then s
      else s.(past := s.past.(clock := now), desk := VerifyCode(s.desk, phone, guess, now))
  }

  function Run(steps: seq<Step>): Sms {
    if steps == [] then START else Apply(Run(steps[..|steps| - 1]), steps[|steps| - 1])
  }

  // ----- counting -----

  ghost function CountIn(cs: seq<Compare>, grants: set<Id>): nat {
    if cs == [] then 0
    else CountIn(cs[..|cs| - 1], grants) + if cs[|cs| - 1].grant in grants then 1 else 0
  }

  ghost function Count(cs: seq<Compare>, id: Id): nat {
    CountIn(cs, {id})
  }

  ghost function Matches(cs: seq<Compare>, id: Id): nat {
    if cs == [] then 0
    else Matches(cs[..|cs| - 1], id) + if cs[|cs| - 1].grant == id && cs[|cs| - 1].matched then 1 else 0
  }

  ghost function TotalFor(cs: seq<Compare>, phone: string): nat {
    if cs == [] then 0
    else TotalFor(cs[..|cs| - 1], phone) + if cs[|cs| - 1].phone == phone then 1 else 0
  }

  lemma CountsAppend(cs: seq<Compare>, c: Compare, id: Id)
    ensures Count(cs + [c], id) == Count(cs, id) + if c.grant == id then 1 else 0
    ensures Matches(cs + [c], id) == Matches(cs, id) + if c.grant == id && c.matched then 1 else 0
  {
    assert (cs + [c])[..|cs|] == cs;
  }

  lemma {:induction false} CountSplit(cs: seq<Compare>, grants: set<Id>, id: Id)
    requires id in grants
    ensures CountIn(cs, grants) == CountIn(cs, grants - {id}) + Count(cs, id)
    decreases |cs|
  {
    if cs != [] {
      CountSplit(cs[..|cs| - 1], grants, id);
    }
  }

  /** Pigeonhole: with at most three comparisons per code, few codes allow few comparisons. */
  lemma {:induction false} CountAtMost(cs: seq<Compare>, grants: set<Id>)
    requires forall id | id in grants :: Count(cs, id) <= MAX_ATTEMPTS
    ensures CountIn(cs, grants) <= MAX_ATTEMPTS * |grants|
    decreases |grants|
  {
    if grants == {} {
      CountNone(cs);
    } else {
      var id :| id in grants;
      CountSplit(cs, grants, id);
      CountAtMost(cs, grants - {id});
    }
  }

  lemma {:induction false} CountNone(cs: seq<Compare>)
    ensures CountIn(cs, {}) == 0
    decreases |cs|
  {
    if cs != [] {
      CountNone(cs[..|cs| - 1]);
    }
  }

  lemma {:induction false} TotalWithin(cs: seq<Compare>, phone: string, grants: set<Id>)
    requires forall c | c in cs && c.phone == phone :: c.grant in grants
    ensures TotalFor(cs, phone) <= CountIn(cs, grants)
    decreases |cs|
  {
    if cs != [] {
      TotalWithin(cs[..|cs| - 1], phone, grants);
    }
  }

  // ----- the invariant -----

  /** The code `id` can still be matched: fewer than three comparisons so far and no match. */
  ghost predicate Open(d: Desk, id: Id) {
    Count(d.compares, id) < MAX_ATTEMPTS && Matches(d.compares, id) == 0
  }

  /** The quota keys stand in for a record within the policy. */
  ghost predicate QuotaInv(s: Sms) {
    Q.Related(s.quota.store, s.quota.log, s.past) && Q.LogBounded(s.quota.log, Q.SEND_POLICY)
  }

  /** Every call holds its grant exactly until it gave it back. */
  ghost predicate HoldsInv(s: Sms) {
    && (forall id | id in s.desk.senders :: id in s.past.known)
    && (forall id | id in s.desk.senders && s.desk.senders[id].phase != Returned ::
          id in s.quota.log && s.quota.log[id].phone == s.desk.senders[id].phone)
    && (forall id | id in s.desk.senders && s.desk.senders[id].phase == Returned :: id !in s.quota.log)
  }

  ghost predicate IssuedInv(d: Desk) {
    && (forall id | id in d.issued ::
          id in d.senders && d.senders[id].phase != Reserved && d.senders[id].phone == d.issued[id].phone)
    && (forall phone | phone in d.latest ::
          d.latest[phone] in d.issued && d.issued[d.latest[phone]].phone == phone)
  }

  ghost predicate CompareInv(d: Desk) {
    && (forall c | c in d.compares :: c.grant in d.issued && d.issued[c.grant].phone == c.phone)
    && (forall id :: Count(d.compares, id) <= MAX_ATTEMPTS)
    && (forall id :: Matches(d.compares, id) <= 1)
    && (forall id :: id !in d.issued ==> Count(d.compares, id) == 0)
    && (forall id :: id !in d.issued ==> Matches(d.compares, id) == 0)
  }

  /** The store holds the latest code of each phone, with its attempts, exactly while it is open. */
  ghost predicate StoreInv(d: Desk) {
    && (forall phone | phone in d.codes :: phone in d.latest)
    && (forall phone | phone in d.latest :: phone in d.codes <==> Open(d, d.latest[phone]))
    && (forall phone | phone in d.codes && phone in d.latest && d.latest[phone] in d.issued ::
          d.codes[phone] == CodeRec(d.issued[d.latest[phone]].code, Count(d.compares, d.latest[phone]),
                                    d.issued[d.latest[phone]].at + CODE_TTL_MS))
  }

  ghost predicate DeskInv(d: Desk) {
    IssuedInv(d) && CompareInv(d) && StoreInv(d)
  }

  ghost predicate Inv(s: Sms) {
    QuotaInv(s) && HoldsInv(s) && DeskInv(s.desk)
  }

  lemma OpenCallKeeps(d: Desk, id: Id, phone: string)
    requires DeskInv(d) && id !in d.senders
    ensures DeskInv(OpenCall(d, id, phone))
  {
    SameHistory(d, OpenCall(d, id, phone));
  }

  lemma MoveKeeps(d: Desk, id: Id, phase: Phase)
    requires DeskInv(d) && id in d.senders && phase != Reserved
    ensures DeskInv(Move(d, id, phase))
  {
    SameHistory(d, Move(d, id, phase));
  }

  lemma SameHistory(d: Desk, d': Desk)
    requires d'.compares == d.compares
    ensures forall id :: Open(d', id) == Open(d, id)
  {
  }

  lemma StoreKeeps(d: Desk, id: Id, code: string, ok: bool, wrote: bool, now: int)
    requires DeskInv(d) && At(d, id, Reserved)
    ensures DeskInv(StoreCode(d, id, code, ok, wrote, now))
  {
    var d' := StoreCode(d, id, code, ok, wrote, now);
    assert id !in d.issued;
    if !ok && !wrote {
      MoveKeeps(d, id, SetFailed);
    } else {
      StoredIssued(d, d', id, code, now);
      StoredCodes(d, d', id, code, now);
    }
  }

  /** A code was stored for the sender of `id`. */
  ghost predicate Stores(d: Desk, d': Desk, id: Id, code: string, now: int) {
    && At(d, id, Reserved) && id !in d.issued && d'.compares == d.compares
    && id in d'.senders && d'.senders == d.senders[id := d'.senders[id]]
    && d'.senders[id].phone == d.senders[id].phone && d'.senders[id].phase != Reserved
    && d'.codes == SetScript(d.codes, d.senders[id].phone, code, now, CODE_TTL_MS)
    && d'.latest == d.latest[d.senders[id].phone := id]
    && d'.issued == d.issued[id := Issued(d.senders[id].phone, code, now)]
  }

  lemma StoredIssued(d: Desk, d': Desk, id: Id, code: string, now: int)
    requires IssuedInv(d) && CompareInv(d) && Stores(d, d', id, code, now)
    ensures IssuedInv(d') && CompareInv(d')
  {
  }

  lemma StoredCodes(d: Desk, d': Desk, id: Id, code: string, now: int)
    requires IssuedInv(d) && CompareInv(d) && StoreInv(d) && Stores(d, d', id, code, now)
    ensures StoreInv(d')
  {
    SameHistory(d, d');
    assert Count(d.compares, id) == 0 && Matches(d.compares, id) == 0;
    assert Open(d', id);
    forall phone | phone in d.latest ensures d.latest[phone] != id {
    }
  }

  lemma VerifyKeeps(d: Desk, phone: string, guess: string, now: int)
    requires DeskInv(d)
    ensures DeskInv(VerifyCode(d, phone, guess, now))
  {
    var d' := VerifyCode(d, phone, guess, now);
    if HasCode(d.codes, phone, now) {
      var id := d.latest[phone];
      var c := Compare(phone, id, ConsumeScript(d.codes, phone, guess, now).1 == 1);
      assert d'.compares == d.compares + [c];
      forall x
        ensures Count(d'.compares, x) == Count(d.compares, x) + if x == id then 1 else 0
        ensures Matches(d'.compares, x) == Matches(d.compares, x) + if x == id && c.matched then 1 else 0
      {
        CountsAppend(d.compares, c, x);
      }
      assert Open(d, id);
      VerifyKeepsStore(d, d', phone, id);
    } else {
      SameHistory(d, d');
    }
  }

  lemma VerifyKeepsStore(d: Desk, d': Desk, phone: string, id: Id)
    requires IssuedInv(d) && StoreInv(d) && phone in d.codes && d.latest[phone] == id
    requires d' == d.(codes := d'.codes, compares := d'.compares)
    requires d'.codes - {phone} == d.codes - {phone}
    requires forall x | x != id :: Count(d'.compares, x) == Count(d.compares, x)
    requires forall x | x != id :: Matches(d'.compares, x) == Matches(d.compares, x)
    requires phone in d'.codes <==> Open(d', id)
    requires phone in d'.codes ==> d'.codes[phone] == d.codes[phone].(attempts := Count(d'.compares, id))
    ensures StoreInv(d')
  {
    forall p | p in d'.latest && p != phone
      ensures d.latest[p] != id && (p in d'.codes <==> p in d.codes) && Open(d', d.latest[p]) == Open(d, d.latest[p])
      ensures p in d.codes ==> d'.codes[p] == d.codes[p]
    {
      assert p in d'.codes <==> p in d'.codes - {phone};
      assert p in d.codes <==> p in d.codes - {phone};
      assert p in d.codes ==> (d'.codes - {phone})[p] == (d.codes - {phone})[p];
    }
    forall p | p in d'.codes ensures p in d'.latest {
      if p != phone {
        assert p in d'.codes - {phone};
      }
    }
  }

  lemma QuotaStep(s: Sms, op: Q.Op)
    requires QuotaInv(s) && Q.Admissible(s.past, op)
    requires op.Reserve? ==> op.policy == Q.SEND_POLICY
    ensures QuotaInv(Sms(Q.Apply(s.quota, op).0, Q.Advance(s.past, op), s.desk))
    ensures Q.Apply(s.quota, op).0.log == Q.NaiveApply(s.quota.log, op).0
    ensures Q.Apply(s.quota, op).1 == Q.NaiveApply(s.quota.log, op).1
  {
    Q.ApplyRelated(s.quota, s.past, op);
    Q.ApplyBounded(s.quota, s.past, op, Q.SEND_POLICY);
  }

  lemma ClockStep(s: Sms, now: int)
    requires QuotaInv(s) && s.past.clock <= now
    ensures QuotaInv(s.(past := s.past.(clock := now)))
  {
    Q.RelatedLater(s.quota.store, s.quota.log, s.past, s.past.(clock := now));
  }

  lemma LogKnown(s: Sms, id: Id)
    requires QuotaInv(s) && id in s.quota.log
    ensures id in s.past.known && s.past.known[id] == Q.Reservation(id, s.quota.log[id].ip, s.quota.log[id].phone)
  {
  }

  lemma ReserveStepKeeps(s: Sms, e: Step)
    requires Inv(s) && e.ReserveStep?
    ensures Inv(Apply(s, e))
  {
    var op := Q.Reserve(e.now, e.ip, e.phone, Q.SEND_POLICY, e.id);
    if Q.Admissible(s.past, op) {
      QuotaStep(s, op);
      assert e.id !in s.desk.senders;
      OpenCallKeeps(s.desk, e.id, e.phone);
      var (quota, answer) := Q.Apply(s.quota, op);
      ReserveHolds(s, e, quota, answer == Q.Reason(0));
    }
  }

  lemma ReserveHolds(s: Sms, e: Step, quota: Q.Quota, granted: bool)
    requires HoldsInv(s) && e.ReserveStep? && e.id !in s.past.known
    requires quota.log == if granted then s.quota.log[e.id := Q.Grant(e.ip, e.phone, e.now)] else s.quota.log
    ensures HoldsInv(Sms(quota, Q.Past(e.now, s.past.known[e.id := Q.Reservation(e.id, e.ip, e.phone)]),
                         if granted then OpenCall(s.desk, e.id, e.phone) else s.desk))
  {
  }

  /** A call moved on without giving its grant back. */
  lemma DeskHolds(s: Sms, s': Sms)
    requires HoldsInv(s) && s'.quota == s.quota && s'.past.known == s.past.known
    requires s'.desk.senders.Keys == s.desk.senders.Keys
    requires forall id | id in s.desk.senders ::
               && s'.desk.senders[id].phone == s.desk.senders[id].phone
               && (s'.desk.senders[id].phase == Returned <==> s.desk.senders[id].phase == Returned)
    ensures HoldsInv(s')
  {
  }

  lemma StoreSenders(d: Desk, id: Id, code: string, ok: bool, wrote: bool, now: int)
    requires At(d, id, Reserved)
    ensures StoreCode(d, id, code, ok, wrote, now).senders == Move(d, id, if ok then Stored else SetFailed).senders
  {
  }

  lemma StoreStepParts(s: Sms, e: Step, d': Desk)
    requires e.StoreStep? && HoldsInv(s) && DeskInv(d') && QuotaInv(s.(past := s.past.(clock := e.now)))
    requires At(s.desk, e.id, Reserved) && d'.senders == Move(s.desk, e.id, if e.ok then Stored else SetFailed).senders
    ensures Inv(s.(past := s.past.(clock := e.now), desk := d'))
  {
    DeskHolds(s, s.(past := s.past.(clock := e.now), desk := d'));
  }

  lemma StoreStepKeeps(s: Sms, e: Step)
    requires Inv(s) && e.StoreStep?
    ensures Inv(Apply(s, e))
  {
    if At(s.desk, e.id, Reserved) && s.past.clock <= e.now {
      ClockStep(s, e.now);
      StoreKeeps(s.desk, e.id, e.code, e.ok, e.wrote, e.now);
      StoreSenders(s.desk, e.id, e.code, e.ok, e.wrote, e.now);
      StoreStepParts(s, e, StoreCode(s.desk, e.id, e.code, e.ok, e.wrote, e.now));
    }
  }

  lemma ReturnHolds(s: Sms, s': Sms, id: Id)
    requires HoldsInv(s) && id in s.desk.senders && s'.past == s.past && s'.quota.log == s.quota.log - {id}
    requires s'.desk.senders == s.desk.senders[id := s.desk.senders[id].(phase := Returned)]
    ensures HoldsInv(s')
  {
  }

  lemma ReturnKeeps(s: Sms, e: Step)
    requires Inv(s) && e.ReleaseStep? && (e.ok || e.wrote) && At(s.desk, e.id, SetFailed) && e.id in s.past.known
    requires DeskInv(Move(s.desk, e.id, Returned))
    ensures Inv(Apply(s, e))
  {
    LogKnown(s, e.id);
    QuotaStep(s, Q.Release(s.past.known[e.id]));
    ReturnHolds(s, Apply(s, e), e.id);
  }

  lemma ReleaseStepKeeps(s: Sms, e: Step)
    requires Inv(s) && e.ReleaseStep?
    ensures Inv(Apply(s, e))
  {
    if At(s.desk, e.id, SetFailed) && e.id in s.past.known {
      MoveKeeps(s.desk, e.id, Returned);
      MoveKeeps(s.desk, e.id, Kept);
      if e.ok || e.wrote {
        ReturnKeeps(s, e);
      } else {
        DeskHolds(s, Apply(s, e));
      }
    }
  }

  lemma VerifyStepKeeps(s: Sms, e: Step)
    requires Inv(s) && e.VerifyStep?
    ensures Inv(Apply(s, e))
  {
    if s.past.clock <= e.now {
      ClockStep(s, e.now);
      VerifyKeeps(s.desk, e.phone, e.guess, e.now);
    }
  }

  lemma StartInv()
    ensures Inv(START)
  {
    Q.EmptyRelated(0);
    Q.WindowsStayBounded([], 0, Q.SEND_POLICY);
  }

  lemma {:induction false} RunInv(steps: seq<Step>)
    ensures Inv(Run(steps))
    decreases |steps|
  {
    if steps == [] {
      StartInv();
    } else {
      var s, e := Run(steps[..|steps| - 1]), steps[|steps| - 1];
      RunInv(steps[..|steps| - 1]);
      match e
      case ReserveStep(_, _, _, _) => ReserveStepKeeps(s, e);
      case StoreStep(_, _, _, _, _) => StoreStepKeeps(s, e);
      case ReleaseStep(_, _, _) => ReleaseStepKeeps(s, e);
      case VerifyStep(_, _, _) => VerifyStepKeeps(s, e);
    }
  }

  // ----- theorems -----

  /** Every code ever stored is compared at most three times and matched at most once. */
  lemma ThreeGuessesPerCode(steps: seq<Step>, id: Id)
    ensures Count(Run(steps).desk.compares, id) <= 3
    ensures Matches(Run(steps).desk.compares, id) <= 1
  {
    RunInv(steps);
  }

  /** Told from history alone: there is a latest code for the phone, unexpired and still open. */
  ghost predicate Live(d: Desk, phone: string, now: int) {
    && phone in d.latest && d.latest[phone] in d.issued
    && now <= d.issued[d.latest[phone]].at + 300000
    && Count(d.compares, d.latest[phone]) < 3 && Matches(d.compares, d.latest[phone]) == 0
  }

  /**
   A guess matches exactly when it equals the latest code stored for the phone, that code
   has not expired, was compared fewer than three times and never matched; the third
   wrong guess, and no other, reports exhaustion.
   */
  lemma VerifyJudgesLatestCode(steps: seq<Step>, phone: string, guess: string, now: int)
    ensures var d := Run(steps).desk;
            var result := ConsumeScript(d.codes, phone, guess, now).1;
            && (result == 1 <==> Live(d, phone, now) && d.issued[d.latest[phone]].code == guess)
            && (result == -1 <==> Live(d, phone, now) && d.issued[d.latest[phone]].code != guess
                                  && Count(d.compares, d.latest[phone]) == 2)
  {
    RunInv(steps);
    JudgesLatest(Run(steps).desk, phone, guess, now);
  }

  lemma JudgesLatest(d: Desk, phone: string, guess: string, now: int)
    requires DeskInv(d)
    ensures var result := ConsumeScript(d.codes, phone, guess, now).1;
            && (result == 1 <==> Live(d, phone, now) && d.issued[d.latest[phone]].code == guess)
            && (result == -1 <==> Live(d, phone, now) && d.issued[d.latest[phone]].code != guess
                                  && Count(d.compares, d.latest[phone]) == 2)
  {
    if phone in d.latest {
      var id := d.latest[phone];
      assert id in d.issued && (phone in d.codes <==> Open(d, id));
    }
  }

  /** No failed store took effect in this run. */
  ghost predicate FailedStoresWroteNothing(steps: seq<Step>) {
    forall e | e in steps && e.StoreStep? && !e.ok :: !e.wrote
  }

  ghost predicate IssuedStored(d: Desk) {
    forall id | id in d.issued :: id in d.senders && d.senders[id].phase == Stored
  }

  /** What one step can do to the desk, whatever the quota says. */
  ghost predicate DeskMoves(d: Desk, e: Step, d': Desk) {
    || d' == d
    || (e.ReserveStep? && e.id !in d.senders && d' == OpenCall(d, e.id, e.phone))
    || (e.StoreStep? && At(d, e.id, Reserved) && d' == StoreCode(d, e.id, e.code, e.ok, e.wrote, e.now))
    || (e.ReleaseStep? && At(d, e.id, SetFailed) && d' == Move(d, e.id, if e.ok || e.wrote then Returned else Kept))
    || (e.VerifyStep? && d' == VerifyCode(d, e.phone, e.guess, e.now))
  }

  lemma DeskAfter(s: Sms, e: Step)
    requires HoldsInv(s)
    ensures DeskMoves(s.desk, e, Apply(s, e).desk)
  {
    match e
    case ReserveStep(_, _, _, _) =>
    case StoreStep(_, _, _, _, _) =>
    case ReleaseStep(_, _, _) =>
    case VerifyStep(_, _, _) =>
  }

  lemma StoredStep(d: Desk, e: Step, d': Desk)
    requires IssuedInv(d) && IssuedStored(d) && DeskMoves(d, e, d')
    requires e.StoreStep? && !e.ok ==> !e.wrote
    ensures IssuedStored(d')
  {
  }

  lemma {:induction false} IssuedAreStored(steps: seq<Step>)
    requires FailedStoresWroteNothing(steps)
    ensures IssuedStored(Run(steps).desk)
    decreases |steps|
  {
    if steps != [] {
      RunInv(steps[..|steps| - 1]);
      IssuedAreStored(steps[..|steps| - 1]);
      var s, e := Run(steps[..|steps| - 1]), steps[|steps| - 1];
      DeskAfter(s, e);
      StoredStep(s.desk, e, Apply(s, e).desk);
    }
  }

  /** The unreleased grants of a phone. */
  ghost function Unreleased(s: Sms, phone: string): set<Id> {
    set id | id in s.quota.log && s.quota.log[id].phone == phone
  }

  ghost function CodesOf(d: Desk, phone: string): set<Id> {
    set id | id in d.issued && d.issued[id].phone == phone
  }

  lemma GuessesInCodes(d: Desk, phone: string, grants: set<Id>)
    requires CompareInv(d) && CodesOf(d, phone) <= grants
    ensures TotalFor(d.compares, phone) <= 3 * |grants|
  {
    forall c | c in d.compares && c.phone == phone ensures c.grant in grants {
      assert c.grant in CodesOf(d, phone);
    }
    TotalWithin(d.compares, phone, grants);
    CountAtMost(d.compares, grants);
  }

  /** No code stored for the phone belongs to a call that gave its grant back. */
  ghost predicate NoneReturned(d: Desk, phone: string) {
    forall id | id in CodesOf(d, phone) :: !At(d, id, Returned)
  }

  /** Every code stored for a phone is backed by an unreleased grant exactly when none was returned. */
  lemma CodesBackedExactly(steps: seq<Step>, phone: string)
    ensures CodesOf(Run(steps).desk, phone) <= Unreleased(Run(steps), phone) <==> NoneReturned(Run(steps).desk, phone)
  {
    RunInv(steps);
    CodesBacked(Run(steps), phone);
  }

  lemma CodesBacked(s: Sms, phone: string)
    requires HoldsInv(s) && IssuedInv(s.desk)
    ensures CodesOf(s.desk, phone) <= Unreleased(s, phone) <==> NoneReturned(s.desk, phone)
  {
    if CodesOf(s.desk, phone) <= Unreleased(s, phone) {
      forall id | id in CodesOf(s.desk, phone) ensures !At(s.desk, id, Returned) {
        assert id in Unreleased(s, phone);
      }
    }
  }

  /**
   Bounded guesses: over every run, the comparisons made for a phone never exceed three times
   its unreleased grants, unless a call for that phone gave its grant back although its
   code had been stored.
   */
  lemma GuessesWithinGrants(steps: seq<Step>, phone: string)
    ensures NoneReturned(Run(steps).desk, phone) ==>
              TotalFor(Run(steps).desk.compares, phone) <= 3 * |Unreleased(Run(steps), phone)|
  {
    var s := Run(steps);
    RunInv(steps);
    if NoneReturned(s.desk, phone) {
      CodesBacked(s, phone);
      GuessesInCodes(s.desk, phone, Unreleased(s, phone));
    }
  }

  /** In particular when no store that reported failure took effect. */
  lemma GuessesWhenStoresTell(steps: seq<Step>, phone: string)
    requires FailedStoresWroteNothing(steps)
    ensures TotalFor(Run(steps).desk.compares, phone) <= 3 * |Unreleased(Run(steps), phone)|
  {
    IssuedAreStored(steps);
    GuessesWithinGrants(steps, phone);
  }

  /** Without that proviso, the bound counts every code ever stored for the phone. */
  lemma GuessesWithinCodes(steps: seq<Step>, phone: string)
    ensures TotalFor(Run(steps).desk.compares, phone) <= 3 * |CodesOf(Run(steps).desk, phone)|
  {
    RunInv(steps);
    GuessesInCodes(Run(steps).desk, phone, CodesOf(Run(steps).desk, phone));
  }

  /** Quota and attempts together: the codes reserved for a phone on one calendar day take at most 15 guesses. */
  lemma FifteenGuessesPerDay(steps: seq<Step>, phone: string, day: int)
    ensures CountIn(Run(steps).desk.compares, P.PhoneOnDay(Run(steps).quota.log, phone, day)) <= 15
  {
    var s := Run(steps);
    RunInv(steps);
    P.BoundedIsWithin(s.quota.log, Q.SEND_POLICY);
    assert |P.PhoneOnDay(s.quota.log, phone, day)| <= 5;
    CountAtMost(s.desk.compares, P.PhoneOnDay(s.quota.log, phone, day));
  }

  /**
   The proviso is needed: reserve, a store that takes effect but reports failure, release and one
   wrong guess are a run with a guess and no grant, for any phone, address and codes.
   */
  lemma HiddenStoreEscapesQuota(ip: string, phone: string, code: string, guess: string, id: Id)
      returns (steps: seq<Step>)
    requires code != guess
    ensures TotalFor(Run(steps).desk.compares, phone) > 3 * |Unreleased(Run(steps), phone)|
  {
    var first := FirstReserve(ip, phone, id);
    steps := HiddenStoreAfter(first, id, phone, code, guess);
  }

  lemma FirstReserve(ip: string, phone: string, id: Id) returns (first: seq<Step>)
    ensures JustReserved(Run(first), id, phone)
  {
    first := [ReserveStep(0, ip, phone, id)];
    assert first[..0] == [];
    assert Run([]) == START;
    FirstReserveGranted(ip, phone, id);
  }

  ghost predicate JustReserved(s: Sms, id: Id, phone: string) {
    && s.past.clock == 0 && id in s.past.known && s.past.known[id].id == id
    && s.quota.log.Keys == {id} && s.desk == OpenCall(START.desk, id, phone)
  }

  lemma HiddenStoreAfter(first: seq<Step>, id: Id, phone: string, code: string, guess: string)
      returns (steps: seq<Step>)
    requires JustReserved(Run(first), id, phone) && code != guess
    ensures TotalFor(Run(steps).desk.compares, phone) > 3 * |Unreleased(Run(steps), phone)|
  {
    steps := first + [StoreStep(0, id, code, false, true), ReleaseStep(id, true, false), VerifyStep(0, phone, guess)];
    RunThree(first, StoreStep(0, id, code, false, true), ReleaseStep(id, true, false), VerifyStep(0, phone, guess));
    HiddenStoreFrom(Run(first), id, phone, code, guess);
  }

  lemma RunThree(first: seq<Step>, a: Step, b: Step, c: Step)
    ensures Run(first + [a, b, c]) == Apply(Apply(Apply(Run(first), a), b), c)
  {
    RunSnoc(first, a);
    RunSnoc(first + [a], b);
    RunSnoc(first + [a] + [b], c);
    assert first + [a, b, c] == first + [a] + [b] + [c];
  }

  lemma RunSnoc(steps: seq<Step>, e: Step)
    ensures Run(steps + [e]) == Apply(Run(steps), e)
  {
    assert (steps + [e])[..|steps|] == steps;
  }

  lemma HiddenStoreFrom(s: Sms, id: Id, phone: string, code: string, guess: string)
    requires JustReserved(s, id, phone) && code != guess
    ensures var s' := Apply(Apply(Apply(s, StoreStep(0, id, code, false, true)), ReleaseStep(id, true, false)),
                            VerifyStep(0, phone, guess));
            TotalFor(s'.desk.compares, phone) > 3 * |Unreleased(s', phone)|
  {
    var s1 := Apply(s, StoreStep(0, id, code, false, true));
    var s2 := Apply(s1, ReleaseStep(id, true, false));
    assert s2.quota.log == s.quota.log - {id} == map[];
    var s3 := Apply(s2, VerifyStep(0, phone, guess));
    assert s3.desk.compares == [Compare(phone, id, false)];
    assert s3.desk.compares[..0] == [];
    assert Unreleased(s3, phone) == {};
  }

  lemma FirstReserveGranted(ip: string, phone: string, id: Id)
    ensures var s := Apply(START, ReserveStep(0, ip, phone, id));
            && s.past == Q.Past(0, map[id := Q.Reservation(id, ip, phone)])
            && s.quota.log == map[id := Q.Grant(ip, phone, 0)]
            && s.desk == OpenCall(START.desk, id, phone)
  {
    var op := Q.Reserve(0, ip, phone, Q.SEND_POLICY, id);
    Q.EmptyRelated(0);
    Q.ApplyRelated(Q.EMPTY, Q.Past(0, map[]), op);
    EmptyLogAllows(ip, phone);
  }

  lemma EmptyLogAllows(ip: string, phone: string)
    ensures Q.NaiveReason(map[], ip, phone, Q.SEND_POLICY, 0) == 0
  {
    var counts := Q.NaiveCounts(map[], Q.Keys(ip, phone), 0);
    forall i | 0 <= i < 4 ensures counts[i] == 0 {
      var k := Q.Keys(ip, phone)[i];
      assert Recent(Q.WindowOf(k), Q.GrantsOf(map[], k), 0) == map[];
    }
  }
}
