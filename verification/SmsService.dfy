/** The code store and the SMS service as they run: keys overwritten, counted up and deleted in place. */
module SmsService {
  import opened Windows
  import Q = SmsQuota
  import L = SmsLimit
  import C = SmsCode

  datatype ConsumeResult = Matched | Wrong | AttemptsExceeded

  class CodeStore {
    var codes: C.Codes

    constructor ()
      ensures codes == map[]
    {
      codes := map[];
    }

    /** Refuses a time to live under one millisecond; otherwise runs the script, which resets the attempts. */
    method SetCode(phone: string, code: string, ttlMs: int, now: int, reachable: bool) returns (ok: bool)
      modifies this
      ensures ok == (ttlMs > 0 && reachable)
      ensures codes == if ttlMs > 0 && reachable then C.SetScript(old(codes), phone, code, now, ttlMs) else old(codes)
    {
      if ttlMs <= 0 || !reachable {
        return false;
      }
      codes := codes[phone := C.CodeRec(code, 0, now + ttlMs)];
      ok := true;
    }

    method ConsumeCode(phone: string, guess: string, now: int) returns (r: ConsumeResult)
      modifies this
      ensures (codes, if r.Matched? then 1 else if r.Wrong? then 0 else -1)
              == C.ConsumeScript(old(codes), phone, guess, now)
    {
      if phone !in codes || codes[phone].deadline < now {
        return Wrong;
      }
      var stored := codes[phone];
      if stored.code == guess {
        codes := codes - {phone};
        return Matched;
      }
      var attempts := stored.attempts + 1;
      codes := codes[phone := stored.(attempts := attempts)];
      if attempts >= C.MAX_ATTEMPTS {
        codes := codes - {phone};
        assert codes == old(codes) - {phone};
        return AttemptsExceeded;
      }
      r := Wrong;
    }
  }

  datatype VerifyResult = Valid | Invalid | ThreeWrong | StoreDown

  datatype Captcha = CaptchaValid | CaptchaWrong | CaptchaUnavailable

  /** What the outside world does during one `SendCode`. */
  datatype World = World(captcha: Captcha, quotaUp: bool, storeUp: bool, releaseUp: bool, smsSent: bool)

  datatype SendResult =
    | Sent
    | MissingIp
    | BadCaptcha
    | Unavailable
    | TooMany(reason: nat)
    | SendUnknown

  function Charge(store: Q.Store, ip: string, phone: string, now: int, id: Id): (Q.Store, nat) {
    Q.ReserveScript(store, Q.Keys(ip, phone), Q.Limits(Q.SEND_POLICY), now, id)
  }

  /** The quota keys and codes after a `SendCode` whose quota was asked for. */
  function SendEffect(store: Q.Store, codes: C.Codes, ip: string, phone: string, code: string, now: int, id: Id,
                      w: World): (Q.Store, C.Codes)
  {
    var (charged, reason) := Charge(store, ip, phone, now, id);
    if reason != 0 then (charged, codes)
    else if w.storeUp then (charged, C.SetScript(codes, phone, code, now, C.CODE_TTL_MS))
    else (if w.releaseUp then Q.RemoveAll(charged, Q.Keys(ip, phone), id) else charged, codes)
  }

  class Service {
    const limit: L.Limit
    const cache: CodeStore

    constructor (limit: L.Limit, cache: CodeStore)
      ensures this.limit == limit && this.cache == cache
    {
      this.limit := limit;
      this.cache := cache;
    }

    /**
     The quota is charged exactly when the code was stored or could not be given back;
     the code is stored exactly when the result is `Sent` or `SendUnknown`.
     */
    method SendCode(clientIp: string, phone: string, code: string, now: int, id: Id, w: World) returns (r: SendResult)
      modifies limit, cache
      ensures r == MissingIp <==> clientIp == ""
      ensures r == BadCaptcha <==> clientIp != "" && w.captcha == CaptchaWrong
      ensures var asked := clientIp != "" && w.captcha == CaptchaValid && w.quotaUp;
              var reason := Charge(old(limit.store), clientIp, phone, now, id).1;
              && (!asked ==> limit.store == old(limit.store) && cache.codes == old(cache.codes))
              && (!asked && clientIp != "" && w.captcha != CaptchaWrong ==> r == Unavailable)
              && (asked ==> (limit.store, cache.codes) ==
                            SendEffect(old(limit.store), old(cache.codes), clientIp, phone, code, now, id, w))
              && (asked ==> (r == TooMany(reason) <==> reason != 0))
              && (asked && reason == 0 ==>
                    r == if !w.storeUp then Unavailable else if w.smsSent then Sent else SendUnknown)
    {
      if clientIp == "" {
        return MissingIp;
      }
      if w.captcha == CaptchaUnavailable {
        return Unavailable;
      }
      if w.captcha == CaptchaWrong {
        return BadCaptcha;
      }
      var outcome := AskQuota(clientIp, phone, now, id, w.quotaUp);
      match outcome
      case Failed => return Unavailable;
      case Refused(reason) => return TooMany(reason);
      case Granted(reservation) => r := StoreAndSend(reservation, code, now, w);
    }

    method AskQuota(ip: string, phone: string, now: int, id: Id, up: bool) returns (r: L.Outcome)
      modifies limit
      ensures r.Failed? <==> !up
      ensures r.Failed? ==> limit.store == old(limit.store)
      ensures r.Granted? ==> r.reservation == Q.Reservation(id, ip, phone)
      ensures up ==> (limit.store, if r.Granted? then 0 else r.reason) == Charge(old(limit.store), ip, phone, now, id)
      ensures r.Refused? ==> r.reason != 0
    {
      r := limit.Reserve(ip, phone, Q.SEND_POLICY, now, id, up);
    }

    /** The granted half of a send: the code is stored, or the reservation is given back. */
    method StoreAndSend(reservation: Q.Reservation, code: string, now: int, w: World) returns (r: SendResult)
      modifies limit, cache
      ensures w.storeUp ==>
                && limit.store == old(limit.store) && r == (if w.smsSent then Sent else SendUnknown)
                && cache.codes == C.SetScript(old(cache.codes), reservation.phone, code, now, C.CODE_TTL_MS)
      ensures !w.storeUp ==>
                && r == Unavailable && cache.codes == old(cache.codes)
                && limit.store == if w.releaseUp
                                  then Q.RemoveAll(old(limit.store), Q.Keys(reservation.ip, reservation.phone),
                                                   reservation.id)
                                  else old(limit.store)
    {
      var stored := cache.SetCode(reservation.phone, code, C.CODE_TTL_MS, now, w.storeUp);
      if !stored {
        var released := limit.Release(reservation, w.releaseUp);
        return Unavailable;
      }
      r := if w.smsSent then Sent else SendUnknown;
    }

    /** True exactly on a match; the guess that uses up the attempts is told apart, and an outage changes nothing. */
    method VerifyCode(phone: string, guess: string, now: int, up: bool) returns (r: VerifyResult)
      modifies cache
      ensures !up ==> r == StoreDown && cache.codes == old(cache.codes)
      ensures up ==> (cache.codes, match r
                                   case Valid => 1
                                   case Invalid => 0
                                   case ThreeWrong => -1
                                   case StoreDown => 2) == C.ConsumeScript(old(cache.codes), phone, guess, now)
    {
      if !up {
        return StoreDown;
      }
      var consumed := cache.ConsumeCode(phone, guess, now);
      match consumed
      case Matched => return Valid;
      case Wrong => return Invalid;
      case AttemptsExceeded => return ThreeWrong;
    }
  }
}
