/**
 The expiring blacklist against one that never forgets: the same events are run over both, and
 the theorems say exactly when the verdicts of rotations and of `Authenticate` differ.
 */
module AuthForgetting {
  import opened Options
  import opened AuthModel
  import opened AuthProofs
  import opened AuthRotation

  /** A lookup of a listed token after the deadline of its entry. */
  predicate ClearsLate(s: State, e: Event) {
    && e.Do? && e.action.AuthLookup? && PcOf(s, e.call).AuthParsed?
    && PcOf(s, e.call).token in s.db.blacklist && s.db.blacklist[PcOf(s, e.call).token] < s.db.now
  }

  /** `Authenticate` accepts a token that was listed when it looked it up. */
  predicate AcceptsLate(s: State, e: Event) {
    && e.Do? && e.action.AuthReadUser? && PcOf(s, e.call).AuthCleared?
    && PcOf(s, e.call).listed && RowAdmits(s.db, PcOf(s, e.call).token)
  }

  // ----- the two runs side by side -----

  /** Where a permanent blacklist has left a call: refused, if it got past only by forgetting. */
  function Hide(pc: Pc): Pc {
    if pc.AuthCleared? && pc.listed then Finished else pc
  }

  function Strip(db: Db): Db {
    db.(accepted := [])
  }

  /** The stores are the same but for what was accepted, and so are the calls but for those let past late. */
  ghost predicate SideBySide(f: State, p: State) {
    && Strip(f.db) == Strip(p.db) && f.calls.Keys == p.calls.Keys
    && (forall call :: PcOf(p, call) == Hide(PcOf(f, call)))
  }

  /** What an action accepts. */
  function Accepted(db: Db, pc: Pc, a: Action): seq<Token> {
    if a.AuthReadUser? && pc.AuthCleared? && RowAdmits(db, pc.token) then [pc.token] else []
  }

  /** Nothing but the row read of `Authenticate` looks at or adds to the accepted tokens. */
  ghost predicate IgnoresAccepted(m: Memory, db: Db, call: CallId, pc: Pc, a: Action, x: seq<Token>) {
    var (db', pc') := Act(m, db, call, pc, a);
    Act(m, db.(accepted := x), call, pc, a) == (db'.(accepted := x), pc') && db'.accepted == db.accepted
  }

  lemma ReadsIgnoreAccepted(m: Memory, db: Db, call: CallId, pc: Pc, a: Action, x: seq<Token>)
    requires a.AuthParse? || a.AuthLookup? || a.LoginRead? || a.SmsLoginRead? || a.RefreshParse? || a.RefreshReadUser?
             || a.LogoutStart? || a.LogoutParse? || a.ResetVerify? || a.ResetLoad? || a.ResetReadUser?
    ensures IgnoresAccepted(m, db, call, pc, a, x)
  {
  }

  lemma CreateIgnoresAccepted(m: Memory, db: Db, call: CallId, pc: Pc, a: Action, x: seq<Token>)
    requires a.RegisterCreate?
    ensures IgnoresAccepted(m, db, call, pc, a, x)
  {
  }

  lemma HandOutIgnoresAccepted(db: Db, call: CallId, access: Token, refresh: Token, o: Origin, x: seq<Token>)
    ensures HandOut(db.(accepted := x), call, access, refresh, o) ==
            HandOut(db, call, access, refresh, o).(accepted := x)
  {
  }

  lemma SignIgnoresAccepted(m: Memory, db: Db, call: CallId, pc: Pc, a: Action, x: seq<Token>)
    requires a.Sign?
    ensures IgnoresAccepted(m, db, call, pc, a, x)
  {
    if pc.Signing? {
      var access := NewAccess(db, pc.user, pc.version, a.jtiAccess);
      var refresh := NewRefresh(db, pc.user, pc.version, a.jtiRefresh);
      HandOutIgnoresAccepted(ClaimPair(db, call, a.jtiAccess, a.jtiRefresh), call, access, refresh,
                             Origin(call, pc.hash), x);
    }
  }

  lemma ClaimIgnoresAccepted(db: Db, call: CallId, ja: Jti, jr: Jti, x: seq<Token>)
    ensures ClaimPair(db.(accepted := x), call, ja, jr) == ClaimPair(db, call, ja, jr).(accepted := x)
  {
  }

  lemma RefreshSignIgnoresAccepted(m: Memory, db: Db, call: CallId, pc: Pc, a: Action, x: seq<Token>)
    requires a.RefreshSign?
    ensures IgnoresAccepted(m, db, call, pc, a, x)
  {
    ClaimIgnoresAccepted(db, call, a.jtiAccess, a.jtiRefresh, x);
    if pc.RefreshAllowed? && db.now < pc.token.exp && FreshPair(db, a.jtiAccess, a.jtiRefresh) {
      RefreshSigns(db, call, pc.token, a.jtiAccess, a.jtiRefresh);
      RefreshSigns(db.(accepted := x), call, pc.token, a.jtiAccess, a.jtiRefresh);
    }
  }

  lemma RefreshSigns(db: Db, call: CallId, t: Token, ja: Jti, jr: Jti)
    requires db.now < t.exp && FreshPair(db, ja, jr)
    ensures DoRefreshSign(db, call, RefreshAllowed(t), ja, jr) ==
            (ClaimPair(db, call, ja, jr), Consuming(t, t.exp - db.now, NewAccess(db, t.user, t.version, ja),
                                                    NewRefresh(db, t.user, t.version, jr)))
  {
  }

  lemma SpendIgnoresAccepted(m: Memory, db: Db, call: CallId, pc: Pc, a: Action, x: seq<Token>)
    requires a.Consume?
    ensures IgnoresAccepted(m, db, call, pc, a, x)
  {
  }

  lemma RevokeIgnoresAccepted(m: Memory, db: Db, call: CallId, pc: Pc, a: Action, x: seq<Token>)
    requires a.LogoutWrite?
    ensures IgnoresAccepted(m, db, call, pc, a, x)
  {
  }

  lemma StoreIgnoresAccepted(m: Memory, db: Db, call: CallId, pc: Pc, a: Action, x: seq<Token>)
    requires a.ResetStore?
    ensures IgnoresAccepted(m, db, call, pc, a, x)
  {
  }

  lemma CleanIgnoresAccepted(m: Memory, db: Db, call: CallId, pc: Pc, a: Action, x: seq<Token>)
    requires a.ResetClean?
    ensures IgnoresAccepted(m, db, call, pc, a, x)
  {
  }

  lemma SwapIgnoresAccepted(m: Memory, db: Db, call: CallId, pc: Pc, a: Action, x: seq<Token>)
    requires a.ResetSwap?
    ensures IgnoresAccepted(m, db, call, pc, a, x)
  {
  }

  lemma ActIgnoresAccepted(m: Memory, db: Db, call: CallId, pc: Pc, a: Action, x: seq<Token>)
    requires !a.AuthReadUser?
    ensures IgnoresAccepted(m, db, call, pc, a, x)
  {
    match a
    case RegisterCreate(_, _, _, _) => CreateIgnoresAccepted(m, db, call, pc, a, x);
    case Sign(_, _) => SignIgnoresAccepted(m, db, call, pc, a, x);
    case RefreshSign(_, _) => RefreshSignIgnoresAccepted(m, db, call, pc, a, x);
    case Consume(_) => SpendIgnoresAccepted(m, db, call, pc, a, x);
    case LogoutWrite(_) => RevokeIgnoresAccepted(m, db, call, pc, a, x);
    case ResetStore(_, _) => StoreIgnoresAccepted(m, db, call, pc, a, x);
    case ResetClean(_) => CleanIgnoresAccepted(m, db, call, pc, a, x);
    case ResetSwap(_, _) => SwapIgnoresAccepted(m, db, call, pc, a, x);
    case _ => ReadsIgnoreAccepted(m, db, call, pc, a, x);
  }

  /** On the same stores the two blacklists differ only in a late lookup and a late spend. */
  lemma ActForgets(db: Db, call: CallId, pc: Pc, a: Action)
    requires !a.AuthReadUser?
    requires !(a == Consume(true) && pc.Consuming? && pc.token in db.blacklist && db.blacklist[pc.token] < db.now)
    ensures var (df, cf) := Act(Forgetful, db, call, pc, a);
            var (dp, cp) := Act(Permanent, db, call, Hide(pc), a);
            df == dp && cp == Hide(cf)
  {
    if pc.AuthCleared? {
      ClearedWaits(Forgetful, db, call, pc, a);
      ClearedWaits(Permanent, db, call, Hide(pc), a);
    } else {
      match a
      case AuthLookup =>
      case Consume(_) =>
      case _ => SameMemory(db, call, pc, a);
    }
  }

  /** A call that waits for its row read, or is over, does nothing else. */
  lemma ClearedWaits(m: Memory, db: Db, call: CallId, pc: Pc, a: Action)
    requires !a.AuthReadUser? && (pc.AuthCleared? || pc.Finished?)
    ensures Act(m, db, call, pc, a) == (db, pc)
  {
  }

  lemma SameMemory(db: Db, call: CallId, pc: Pc, a: Action)
    requires !a.AuthReadUser? && !a.AuthLookup? && !a.Consume? && !pc.AuthCleared?
    ensures Act(Forgetful, db, call, pc, a) == Act(Permanent, db, call, pc, a)
    ensures !Act(Forgetful, db, call, pc, a).1.AuthCleared?
  {
  }

  lemma ActSideBySide(f: Db, p: Db, call: CallId, pc: Pc, a: Action)
    requires Strip(f) == Strip(p)
    requires !(a == Consume(true) && pc.Consuming? && pc.token in f.blacklist && f.blacklist[pc.token] < f.now)
    ensures var (f', cf) := Act(Forgetful, f, call, pc, a);
            var (p', cp) := Act(Permanent, p, call, Hide(pc), a);
            && Strip(f') == Strip(p') && cp == Hide(cf)
            && f'.accepted == f.accepted + Accepted(f, pc, a)
            && p'.accepted == p.accepted + Accepted(f, Hide(pc), a)
  {
    assert p == f.(accepted := p.accepted);
    if a.AuthReadUser? {
      ReadSideBySide(f, p, pc);
    } else {
      ActForgets(f, call, pc, a);
      KeepsAccepted(f, call, pc, a, p.accepted);
    }
  }

  lemma KeepsAccepted(db: Db, call: CallId, pc: Pc, a: Action, x: seq<Token>)
    requires !a.AuthReadUser?
    ensures var db' := Act(Permanent, db, call, Hide(pc), a).0;
            && Act(Permanent, db.(accepted := x), call, Hide(pc), a) ==
               (db'.(accepted := x), Act(Permanent, db, call, Hide(pc), a).1)
            && Act(Forgetful, db, call, pc, a).0.accepted == db.accepted
    ensures db.accepted + [] == db.accepted && x + [] == x
  {
    ActIgnoresAccepted(Forgetful, db, call, pc, a, x);
    ActIgnoresAccepted(Permanent, db, call, Hide(pc), a, x);
  }

  /** The row read adds what it accepts, and nothing else. */
  lemma ReadAccepts(db: Db, pc: Pc)
    ensures DoAuthRead(db, pc).0 == db.(accepted := db.accepted + Accepted(db, pc, AuthReadUser))
  {
    assert db.accepted + [] == db.accepted;
  }

  lemma ReadSideBySide(f: Db, p: Db, pc: Pc)
    requires p == f.(accepted := p.accepted)
    ensures var (f', cf) := DoAuthRead(f, pc);
            var (p', cp) := DoAuthRead(p, Hide(pc));
            && Strip(f') == Strip(p') && cp == Hide(cf)
            && f'.accepted == f.accepted + Accepted(f, pc, AuthReadUser)
            && p'.accepted == p.accepted + Accepted(f, Hide(pc), AuthReadUser)
  {
    ReadAccepts(f, pc);
    ReadAccepts(p, Hide(pc));
    assert Accepted(p, Hide(pc), AuthReadUser) == Accepted(f, Hide(pc), AuthReadUser);
  }

  lemma StepSideBySide(f: State, p: State, e: Event)
    requires SideBySide(f, p) && !Respends(f, e)
    ensures var f', p' := Apply(Forgetful, f, e), Apply(Permanent, p, e);
            && SideBySide(f', p')
            && (if AcceptsLate(f, e)
                then f'.db.accepted == f.db.accepted + [PcOf(f, e.call).token] && p'.db.accepted == p.db.accepted
                else exists more :: f'.db.accepted == f.db.accepted + more && p'.db.accepted == p.db.accepted + more)
  {
    var f', p' := Apply(Forgetful, f, e), Apply(Permanent, p, e);
    if e.Do? {
      var pc := PcOf(f, e.call);
      ActSideBySide(f.db, p.db, e.call, pc, e.action);
      var f1 := ActStep(Forgetful, f, e.call, e.action);
      var p1 := ActStep(Permanent, p, e.call, e.action);
      assert AcceptsLate(f, e) || Accepted(f.db, pc, e.action) == Accepted(f.db, Hide(pc), e.action);
    } else {
      assert f'.db.accepted == f.db.accepted + [] && p'.db.accepted == p.db.accepted + [];
      assert forall call :: PcOf(f', call) == PcOf(f, call) && PcOf(p', call) == PcOf(p, call);
    }
  }

  /** Without a late spend the two runs stay side by side, and accept the same exactly without a late accept. */
  lemma {:induction false} RunsSideBySide(cfg: Config, events: seq<Event>)
    requires !Happens(cfg, events, Respends)
    ensures var f, p := Run(Forgetful, cfg, events), Run(Permanent, cfg, events);
            && SideBySide(f, p)
            && (if Happens(cfg, events, AcceptsLate) then |p.db.accepted| < |f.db.accepted|
                else p.db.accepted == f.db.accepted)
    decreases |events|
  {
    if events != [] {
      var before, e := events[..|events| - 1], events[|events| - 1];
      HappensLast(cfg, events, Respends);
      HappensLast(cfg, events, AcceptsLate);
      RunsSideBySide(cfg, before);
      StepSideBySide(Run(Forgetful, cfg, before), Run(Permanent, cfg, before), e);
    }
  }

  // ----- late spends -----

  /** A permanent blacklist never lets a listed token be spent. */
  lemma PermanentRefuses(s: State, e: Event, t: Token)
    requires Inv(s) && t in s.db.blacklist
    ensures var db' := Apply(Permanent, s, e).db;
            t in db'.blacklist && multiset(db'.rotated)[t] == multiset(s.db.rotated)[t]
  {
    BlacklistGrows(Permanent, s, e);
    StepRotates(Permanent, s, e);
  }

  lemma ForgetfulCounts(s: State, e: Event, t: Token)
    requires Inv(s)
    ensures var db' := Apply(Forgetful, s, e).db;
            && multiset(s.db.rotated)[t] <= multiset(db'.rotated)[t]
            && (Respends(s, e) && TokenOf(s, e) == t ==> multiset(s.db.rotated)[t] < multiset(db'.rotated)[t])
  {
    StepRotates(Forgetful, s, e);
  }

  /** After a late spend some token has been rotated more often than a permanent blacklist allows. */
  lemma {:induction false} ApartOnceRespent(cfg: Config, events: seq<Event>) returns (t: Token)
    requires Happens(cfg, events, Respends)
    ensures t in Run(Permanent, cfg, events).db.blacklist
    ensures multiset(Run(Permanent, cfg, events).db.rotated)[t] < multiset(Run(Forgetful, cfg, events).db.rotated)[t]
    decreases |events|
  {
    var before, e := events[..|events| - 1], events[|events| - 1];
    var f, p := Run(Forgetful, cfg, before), Run(Permanent, cfg, before);
    HappensLast(cfg, events, Respends);
    RunInv(Forgetful, cfg, before);
    RunInv(Permanent, cfg, before);
    if Happens(cfg, before, Respends) {
      t := ApartOnceRespent(cfg, before);
    } else {
      RunsSideBySide(cfg, before);
      t := TokenOf(f, e);
    }
    PermanentRefuses(p, e, t);
    ForgetfulCounts(f, e, t);
  }

  // ----- theorems -----

  /**
   When forgetting is visible: rotations and `Authenticate` give over the expiring blacklist exactly
   the verdicts they give over one that never forgets, if and only if no rotation reaches
   its spend after the deadline of an entry of its token and no `Authenticate` accepts a
   token that was listed when it looked it up.
   */
  lemma ForgettingIsInvisible(cfg: Config, events: seq<Event>)
    ensures var f, p := Run(Forgetful, cfg, events).db, Run(Permanent, cfg, events).db;
            f.rotated == p.rotated && f.accepted == p.accepted
            <==> !Happens(cfg, events, Respends) && !Happens(cfg, events, AcceptsLate)
  {
    if Happens(cfg, events, Respends) {
      var t := ApartOnceRespent(cfg, events);
    } else {
      RunsSideBySide(cfg, events);
    }
  }

  ghost predicate NoneLate(s: State) {
    forall call | PcOf(s, call).AuthCleared? :: !PcOf(s, call).listed
  }

  lemma ActClears(m: Memory, db: Db, call: CallId, pc: Pc, a: Action)
    requires pc.AuthCleared? ==> !pc.listed
    requires a.AuthLookup? && pc.AuthParsed? && pc.token in db.blacklist ==> Blacklisted(m, db, pc.token)
    ensures var pc' := Act(m, db, call, pc, a).1; pc'.AuthCleared? ==> !pc'.listed
  {
  }

  lemma StepClears(s: State, e: Event)
    requires NoneLate(s) && !ClearsLate(s, e)
    ensures NoneLate(Apply(Forgetful, s, e))
  {
    if e.Do? {
      ActClears(Forgetful, s.db, e.call, PcOf(s, e.call), e.action);
      var s' := ActStep(Forgetful, s, e.call, e.action);
    } else {
      assert forall call :: PcOf(Apply(Forgetful, s, e), call) == PcOf(s, call);
    }
  }

  lemma {:induction false} NoLateLookup(cfg: Config, events: seq<Event>)
    requires !Happens(cfg, events, ClearsLate)
    ensures NoneLate(Run(Forgetful, cfg, events)) && !Happens(cfg, events, AcceptsLate)
    decreases |events|
  {
    if events != [] {
      var before, e := events[..|events| - 1], events[|events| - 1];
      HappensLast(cfg, events, ClearsLate);
      HappensLast(cfg, events, AcceptsLate);
      NoLateLookup(cfg, before);
      StepClears(Run(Forgetful, cfg, before), e);
    }
  }

  /** With neither a late spend nor a late lookup the two runs are the same throughout. */
  lemma SameRuns(cfg: Config, events: seq<Event>)
    requires !Happens(cfg, events, Respends) && !Happens(cfg, events, ClearsLate)
    ensures Run(Forgetful, cfg, events) == Run(Permanent, cfg, events)
  {
    RunsSideBySide(cfg, events);
    NoLateLookup(cfg, events);
    var f, p := Run(Forgetful, cfg, events), Run(Permanent, cfg, events);
    forall call | call in f.calls ensures f.calls[call] == p.calls[call] {
      assert PcOf(p, call) == Hide(PcOf(f, call));
    }
    assert f.calls == p.calls;
  }

  // ----- timely runs -----

  /** The token a call has parsed and not yet spent or looked up. */
  function Pending(pc: Pc): Option<Token> {
    if pc.Consuming? || pc.AuthParsed? then Some(pc.token) else None
  }

  /** No call is beyond the expiry of its pending token at time `now`. */
  ghost predicate InTime(s: State, now: int) {
    forall call | Pending(PcOf(s, call)).Some? :: now <= Pending(PcOf(s, call)).value.exp
  }

  /** Time never passes the expiry of a token that a call is about to spend or look up. */
  ghost predicate Timely(cfg: Config, events: seq<Event>)
    decreases |events|
  {
    events == [] ||
    var before, e := events[..|events| - 1], events[|events| - 1];
    var s := Run(Forgetful, cfg, before);
    Timely(cfg, before) && (e.Tick? ==> InTime(s, s.db.now + e.ms))
  }

  lemma ActInTime(m: Memory, db: Db, call: CallId, pc: Pc, a: Action)
    requires Pending(pc).Some? ==> db.now <= Pending(pc).value.exp
    ensures var (db', pc') := Act(m, db, call, pc, a);
            db'.now == db.now && (Pending(pc').Some? ==> db'.now <= Pending(pc').value.exp)
  {
  }

  lemma ApplyInTime(s: State, e: Event)
    requires InTime(s, s.db.now) && (e.Tick? ==> InTime(s, s.db.now + e.ms))
    ensures InTime(Apply(Forgetful, s, e), Apply(Forgetful, s, e).db.now)
  {
    if e.Do? {
      DoInTime(s, e.call, e.action);
    } else {
      WaitInTime(s, Apply(Forgetful, s, e));
    }
  }

  lemma WaitInTime(s: State, s': State)
    requires s'.calls == s.calls && InTime(s, s'.db.now)
    ensures InTime(s', s'.db.now)
  {
    assert forall call :: PcOf(s', call) == PcOf(s, call);
  }

  lemma DoInTime(s: State, call: CallId, a: Action)
    requires InTime(s, s.db.now)
    ensures InTime(Apply(Forgetful, s, Do(call, a)), Apply(Forgetful, s, Do(call, a)).db.now)
  {
    ActInTime(Forgetful, s.db, call, PcOf(s, call), a);
    var s' := ActStep(Forgetful, s, call, a);
    OthersInTime(s, s', call);
  }

  lemma OthersInTime(s: State, s': State, call: CallId)
    requires InTime(s, s.db.now) && s'.db.now == s.db.now
    requires forall other | other != call :: PcOf(s', other) == PcOf(s, other)
    requires Pending(PcOf(s', call)).Some? ==> s'.db.now <= Pending(PcOf(s', call)).value.exp
    ensures InTime(s', s'.db.now)
  {
  }

  lemma TimelyStep(s: State, e: Event)
    requires Inv(s) && InTime(s, s.db.now)
    ensures !Respends(s, e) && !ClearsLate(s, e)
  {
    assert Holds(Blacklisting, s.db);
  }

  lemma {:induction false} TimelyRun(cfg: Config, events: seq<Event>)
    requires Timely(cfg, events)
    ensures InTime(Run(Forgetful, cfg, events), Run(Forgetful, cfg, events).db.now)
    ensures !Happens(cfg, events, Respends) && !Happens(cfg, events, ClearsLate)
    decreases |events|
  {
    if events != [] {
      var before, e := events[..|events| - 1], events[|events| - 1];
      TimelyRun(cfg, before);
      ApplyInTime(Run(Forgetful, cfg, before), e);
      HappensLast(cfg, events, Respends);
      HappensLast(cfg, events, ClearsLate);
      RunInv(Forgetful, cfg, before);
      TimelyStep(Run(Forgetful, cfg, before), e);
    }
  }

  /**
   What callers can rely on by staying timely: in every run where no call outlives the token it is
   about to spend or look up, each login has at most one live refresh token, each refresh
   token is rotated at most once, and the expiring blacklist gives the very run a permanent
   one gives.
   */
  lemma TimelyRotationsAreSingle(cfg: Config, events: seq<Event>)
    requires Timely(cfg, events)
    ensures OneLive(Run(Forgetful, cfg, events).db) && !Repeats(Run(Forgetful, cfg, events).db.rotated)
    ensures Run(Forgetful, cfg, events) == Run(Permanent, cfg, events)
  {
    TimelyRun(cfg, events);
    OneLiveRefreshPerLogin(cfg, events);
    SameRuns(cfg, events);
  }
}
