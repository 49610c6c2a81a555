/** Whole SMS service calls are undisturbed runs of the machine in `SmsCode`. */
module SmsCalls {
  import opened Windows
  import Q = SmsQuota
  import opened SmsCode
  import opened SmsService

  /** The steps of a `SendCode` after its quota was granted. */
  function GrantedSteps(code: string, now: int, id: Id, w: World): seq<Step> {
    [StoreStep(now, id, code, w.storeUp, false)] + if w.storeUp then [] else [ReleaseStep(id, w.releaseUp, false)]
  }

  /** The steps of a `SendCode` that asked for quota. */
  function SendSteps(granted: bool, ip: string, phone: string, code: string, now: int, id: Id, w: World): seq<Step> {
    [ReserveStep(now, ip, phone, id)] + if granted then GrantedSteps(code, now, id, w) else []
  }

  /** The desk of `s` once call `id` got its reservation in the quota keys `charged`. */
  ghost predicate Charged(s: Sms, s': Sms, charged: Q.Store, ip: string, phone: string, now: int, id: Id) {
    && s'.quota.store == charged && s'.past.clock == now && s'.desk == OpenCall(s.desk, id, phone)
    && id in s'.past.known && s'.past.known[id] == Q.Reservation(id, ip, phone)
  }

  lemma ChargeRuns(q: Q.Quota, ip: string, phone: string, now: int, id: Id)
    ensures var (charged, reason) := Charge(q.store, ip, phone, now, id);
            var (q', answer) := Q.Apply(q, Q.Reserve(now, ip, phone, Q.SEND_POLICY, id));
            q'.store == charged && answer == Q.Reason(reason)
  {
  }

  lemma ReserveRuns(s: Sms, ip: string, phone: string, now: int, id: Id)
    requires s.past.clock <= now && id !in s.past.known
    ensures var s' := Apply(s, ReserveStep(now, ip, phone, id));
            var (charged, reason) := Charge(s.quota.store, ip, phone, now, id);
            if reason == 0 then Charged(s, s', charged, ip, phone, now, id)
            else s'.quota.store == charged && s'.desk == s.desk
  {
    ChargeRuns(s.quota, ip, phone, now, id);
  }

  lemma StoreRuns(s: Sms, phone: string, code: string, now: int, id: Id, up: bool)
    requires At(s.desk, id, Reserved) && s.desk.senders[id].phone == phone && s.past.clock == now
    ensures var s' := Apply(s, StoreStep(now, id, code, up, false));
            && s'.quota == s.quota && s'.past == s.past && At(s'.desk, id, if up then Stored else SetFailed)
            && s'.desk.codes == if up then SetScript(s.desk.codes, phone, code, now, CODE_TTL_MS) else s.desk.codes
  {
  }

  lemma ReleaseRuns(s: Sms, ip: string, phone: string, id: Id, up: bool)
    requires At(s.desk, id, SetFailed) && id in s.past.known && s.past.known[id] == Q.Reservation(id, ip, phone)
    ensures var s' := Apply(s, ReleaseStep(id, up, false));
            && s'.desk.codes == s.desk.codes && At(s'.desk, id, if up then Returned else Kept)
            && s'.quota.store == if up then Q.RemoveAll(s.quota.store, Q.Keys(ip, phone), id) else s.quota.store
  {
  }

  /** How a call that got its reservation ended. */
  ghost predicate Granted(s: Sms, s': Sms, charged: Q.Store, ip: string, phone: string, code: string, now: int, id: Id,
                          w: World)
  {
    && At(s'.desk, id, if w.storeUp then Stored else if w.releaseUp then Returned else Kept)
    && s'.desk.codes == (if w.storeUp then SetScript(s.desk.codes, phone, code, now, CODE_TTL_MS) else s.desk.codes)
    && s'.quota.store == if !w.storeUp && w.releaseUp then Q.RemoveAll(charged, Q.Keys(ip, phone), id) else charged
  }

  lemma GrantedRuns(s: Sms, reserved: seq<Step>, charged: Q.Store, ip: string, phone: string, code: string, now: int,
                    id: Id, w: World)
    requires Charged(s, Run(reserved), charged, ip, phone, now, id)
    ensures Granted(s, Run(reserved + GrantedSteps(code, now, id, w)), charged, ip, phone, code, now, id, w)
  {
    var store := StoreStep(now, id, code, w.storeUp, false);
    RunSnoc(reserved, store);
    StoreRuns(Run(reserved), phone, code, now, id, w.storeUp);
    if w.storeUp {
      assert [store] + [] == [store];
    } else {
      RunSnoc(reserved + [store], ReleaseStep(id, w.releaseUp, false));
      ReleaseRuns(Run(reserved + [store]), ip, phone, id, w.releaseUp);
      var release := [ReleaseStep(id, w.releaseUp, false)];
      assert reserved + ([store] + release) == reserved + [store] + release;
    }
  }

  /** What the effect is, once the reserve script has answered. */
  lemma EffectOf(store: Q.Store, codes: Codes, ip: string, phone: string, code: string, now: int, id: Id, w: World)
    ensures var (charged, reason) := Charge(store, ip, phone, now, id);
            SendEffect(store, codes, ip, phone, code, now, id, w) ==
            if reason != 0 then (charged, codes)
            else if w.storeUp then (charged, SetScript(codes, phone, code, now, CODE_TTL_MS))
            else (if w.releaseUp then Q.RemoveAll(charged, Q.Keys(ip, phone), id) else charged, codes)
  {
  }

  lemma SendRuns(before: seq<Step>, ip: string, phone: string, code: string, now: int, id: Id, w: World)
      returns (s': Sms, charged: Q.Store, reason: nat)
    requires Run(before).past.clock <= now && id !in Run(before).past.known
    ensures (charged, reason) == Charge(Run(before).quota.store, ip, phone, now, id)
    ensures s' == Run(before + SendSteps(reason == 0, ip, phone, code, now, id, w))
    ensures reason != 0 ==> s'.quota.store == charged && s'.desk == Run(before).desk
    ensures reason == 0 ==> Granted(Run(before), s', charged, ip, phone, code, now, id, w)
  {
    var e := ReserveStep(now, ip, phone, id);
    charged, reason := ReserveAfter(before, ip, phone, now, id);
    s' := Run(before + SendSteps(reason == 0, ip, phone, code, now, id, w));
    if reason == 0 {
      GrantedAfter(Run(before), before, charged, ip, phone, code, now, id, w);
    } else {
      assert [e] + [] == [e];
    }
  }

  /**
   After any run, an undisturbed `SendCode` of the machine has the effect the service promises, and
   the call ends with its code stored, its grant returned, or its grant kept.
   */
  lemma SendCodeIsRun(before: seq<Step>, ip: string, phone: string, code: string, now: int, id: Id, w: World)
      returns (granted: bool, s': Sms)
    requires Run(before).past.clock <= now && id !in Run(before).past.known
    ensures s' == Run(before + SendSteps(granted, ip, phone, code, now, id, w))
    ensures (s'.quota.store, s'.desk.codes) ==
            SendEffect(Run(before).quota.store, Run(before).desk.codes, ip, phone, code, now, id, w)
    ensures granted <==> Charge(Run(before).quota.store, ip, phone, now, id).1 == 0
    ensures granted ==> At(s'.desk, id, if w.storeUp then Stored else if w.releaseUp then Returned else Kept)
  {
    var s := Run(before);
    var charged, reason;
    s', charged, reason := SendRuns(before, ip, phone, code, now, id, w);
    EffectOf(s.quota.store, s.desk.codes, ip, phone, code, now, id, w);
    granted := reason == 0;
  }

  lemma ReserveAfter(before: seq<Step>, ip: string, phone: string, now: int, id: Id)
      returns (charged: Q.Store, reason: nat)
    requires Run(before).past.clock <= now && id !in Run(before).past.known
    ensures (charged, reason) == Charge(Run(before).quota.store, ip, phone, now, id)
    ensures var s' := Run(before + [ReserveStep(now, ip, phone, id)]);
            if reason == 0 then Charged(Run(before), s', charged, ip, phone, now, id)
            else s'.quota.store == charged && s'.desk == Run(before).desk
  {
    RunSnoc(before, ReserveStep(now, ip, phone, id));
    ReserveRuns(Run(before), ip, phone, now, id);
    var c := Charge(Run(before).quota.store, ip, phone, now, id);
    charged, reason := c.0, c.1;
  }

  lemma GrantedAfter(s: Sms, before: seq<Step>, charged: Q.Store, ip: string, phone: string, code: string, now: int,
                     id: Id, w: World)
    requires Charged(s, Run(before + [ReserveStep(now, ip, phone, id)]), charged, ip, phone, now, id)
    ensures Granted(s, Run(before + SendSteps(true, ip, phone, code, now, id, w)), charged, ip, phone, code, now, id, w)
  {
    var e := ReserveStep(now, ip, phone, id);
    GrantedRuns(s, before + [e], charged, ip, phone, code, now, id, w);
    assert before + ([e] + GrantedSteps(code, now, id, w)) == before + [e] + GrantedSteps(code, now, id, w);
  }

  /** After any run, an undisturbed `VerifyCode` of the machine consumes as the service promises. */
  lemma VerifyCodeIsRun(before: seq<Step>, phone: string, guess: string, now: int)
    requires Run(before).past.clock <= now
    ensures var s, s' := Run(before), Run(before + [VerifyStep(now, phone, guess)]);
            s'.desk.codes == ConsumeScript(s.desk.codes, phone, guess, now).0 && s'.quota == s.quota
  {
    RunSnoc(before, VerifyStep(now, phone, guess));
  }
}
