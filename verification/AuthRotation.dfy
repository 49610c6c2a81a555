/**
 Rotation, logout and the expiring blacklist: exactly which runs keep one live refresh token
 per login, rotate no token twice and behave as over a blacklist that never forgets.
 */
module AuthRotation {
  import opened Options
  import opened AuthModel
  import opened AuthProofs

  // ----- steps of a run -----

  /** Some step of the run from `s` is of the given kind, judged in the state it was taken from. */
  ghost predicate HappensFrom(s: State, events: seq<Event>, kind: (State, Event) -> bool) {
    exists i :: 0 <= i < |events| && kind(RunFrom(Forgetful, s, events[..i]), events[i])
  }

  ghost predicate Happens(cfg: Config, events: seq<Event>, kind: (State, Event) -> bool) {
    HappensFrom(Start(cfg), events, kind)
  }

  lemma HappensFromLast(s: State, events: seq<Event>, kind: (State, Event) -> bool)
    requires events != []
    ensures var before, e := events[..|events| - 1], events[|events| - 1];
            HappensFrom(s, events, kind) <==> HappensFrom(s, before, kind) || kind(RunFrom(Forgetful, s, before), e)
  {
    var before := events[..|events| - 1];
    forall i | 0 <= i < |before| ensures before[..i] == events[..i] && before[i] == events[i] {
    }
    if HappensFrom(s, before, kind) {
      var i :| 0 <= i < |before| && kind(RunFrom(Forgetful, s, before[..i]), before[i]);
      assert kind(RunFrom(Forgetful, s, events[..i]), events[i]);
    }
    if HappensFrom(s, events, kind) {
      var i :| 0 <= i < |events| && kind(RunFrom(Forgetful, s, events[..i]), events[i]);
      assert i < |before| ==> kind(RunFrom(Forgetful, s, before[..i]), before[i]);
    }
  }

  lemma HappensLast(cfg: Config, events: seq<Event>, kind: (State, Event) -> bool)
    requires events != []
    ensures var before, e := events[..|events| - 1], events[|events| - 1];
            Happens(cfg, events, kind) <==> Happens(cfg, before, kind) || kind(Run(Forgetful, cfg, before), e)
  {
    var before := events[..|events| - 1];
    HappensFromLast(Start(cfg), events, kind);
    RunExtends(Forgetful, cfg, [], before);
    assert [] + before == before && Run(Forgetful, cfg, []) == Start(cfg);
  }

  /** A rotation is about to spend its token. */
  predicate Consumes(s: State, e: Event) {
    e.Do? && e.action == Consume(true) && PcOf(s, e.call).Consuming?
  }

  function TokenOf(s: State, e: Event): Token
    requires Consumes(s, e)
  {
    PcOf(s, e.call).token
  }

  /** The spend goes through: no blacklist entry of the token is remembered. */
  predicate Spends(m: Memory, s: State, e: Event) {
    Consumes(s, e) && !Blacklisted(m, s.db, TokenOf(s, e))
  }

  /** The token was blacklisted, by a rotation or a logout, and the entry's deadline has passed. */
  predicate Respends(s: State, e: Event) {
    Consumes(s, e) && TokenOf(s, e) in s.db.blacklist && s.db.blacklist[TokenOf(s, e)] < s.db.now
  }

  /** The token was rotated before, and the entry's deadline has passed. */
  predicate RotatesAgain(s: State, e: Event) {
    Respends(s, e) && TokenOf(s, e) in s.db.rotated
  }

  /** The record of rotations is the same. */
  ghost predicate SameRotations(db: Db, db': Db) {
    db'.rotated == db.rotated && db'.respent == db.respent
  }

  lemma IssueRotates(m: Memory, db: Db, call: CallId, pc: Pc, a: Action)
    requires a.RegisterCreate? || a.Sign? || a.RefreshSign? || a.LogoutWrite?
    ensures SameRotations(db, Act(m, db, call, pc, a).0)
  {
  }

  lemma ResetRotates(m: Memory, db: Db, call: CallId, pc: Pc, a: Action)
    requires a.ResetStore? || a.ResetSwap? || a.ResetClean?
    ensures SameRotations(db, Act(m, db, call, pc, a).0)
  {
  }

  /** Nothing is written but perhaps the record of accepted tokens. */
  lemma ReadRotates(m: Memory, db: Db, call: CallId, pc: Pc, a: Action)
    requires a.AuthParse? || a.AuthLookup? || a.AuthReadUser? || a.LoginRead? || a.SmsLoginRead? || a.RefreshParse?
             || a.RefreshReadUser? || a.LogoutStart? || a.LogoutParse? || a.ResetVerify? || a.ResetLoad?
             || a.ResetReadUser? || (a.Consume? && (!pc.Consuming? || !a.up))
    ensures var db' := Act(m, db, call, pc, a).0; db' == db.(accepted := db'.accepted)
  {
  }

  lemma ActRotates(m: Memory, db: Db, call: CallId, pc: Pc, a: Action)
    requires !(a == Consume(true) && pc.Consuming?)
    ensures SameRotations(db, Act(m, db, call, pc, a).0)
  {
    if a.RegisterCreate? || a.Sign? || a.RefreshSign? || a.LogoutWrite? {
      IssueRotates(m, db, call, pc, a);
    } else if a.ResetStore? || a.ResetSwap? || a.ResetClean? {
      ResetRotates(m, db, call, pc, a);
    } else {
      ReadRotates(m, db, call, pc, a);
    }
  }

  /** What a step adds to the record of rotations. */
  lemma StepRotates(m: Memory, s: State, e: Event)
    requires Inv(s)
    ensures var s' := Apply(m, s, e);
            && s'.db.rotated == s.db.rotated + (if Spends(m, s, e) then [TokenOf(s, e)] else [])
            && (s'.db.respent <==> s.db.respent || (Spends(m, s, e) && TokenOf(s, e) in s.db.blacklist))
  {
    if e.Do? {
      var pc := PcOf(s, e.call);
      assert PcOk(s.db, e.call, pc);
      if Consumes(s, e) {
        ConsumeEffect(m, s.db, e.call, pc);
      } else {
        ActRotates(m, s.db, e.call, pc, e.action);
      }
    }
  }

  lemma ConsumeEffect(m: Memory, db: Db, call: CallId, pc: Pc)
    requires pc.Consuming? && pc.token in db.origin
    ensures var db' := DoConsume(m, db, call, pc, true).0;
            && db'.rotated == db.rotated + (if Blacklisted(m, db, pc.token) then [] else [pc.token])
            && (db'.respent <==> db.respent || (!Blacklisted(m, db, pc.token) && pc.token in db.blacklist))
  {
  }

  lemma {:induction false} RespentMeans(cfg: Config, events: seq<Event>)
    ensures Run(Forgetful, cfg, events).db.respent <==> Happens(cfg, events, Respends)
    decreases |events|
  {
    if events != [] {
      var before, e := events[..|events| - 1], events[|events| - 1];
      RespentMeans(cfg, before);
      HappensLast(cfg, events, Respends);
      RunInv(Forgetful, cfg, before);
      StepRotates(Forgetful, Run(Forgetful, cfg, before), e);
    }
  }

  // ----- no token is rotated twice -----

  ghost predicate Repeats(ts: seq<Token>) {
    exists i, j :: 0 <= i < j < |ts| && ts[i] == ts[j]
  }

  lemma RepeatsAppend(ts: seq<Token>, t: Token)
    ensures Repeats(ts + [t]) <==> Repeats(ts) || t in ts
  {
    var all := ts + [t];
    if Repeats(ts) {
      var i, j :| 0 <= i < j < |ts| && ts[i] == ts[j];
      assert all[i] == all[j];
    }
    if t in ts {
      var i :| 0 <= i < |ts| && ts[i] == t;
      assert all[i] == all[|ts|];
    }
    if Repeats(all) {
      var i, j :| 0 <= i < j < |all| && all[i] == all[j];
      assert j < |ts| ==> ts[i] == ts[j];
    }
  }

  lemma StepRepeats(s: State, e: Event)
    requires Inv(s)
    ensures Repeats(Apply(Forgetful, s, e).db.rotated) <==> Repeats(s.db.rotated) || RotatesAgain(s, e)
  {
    AgainExactly(s, e);
    StepRotates(Forgetful, s, e);
    if Spends(Forgetful, s, e) {
      RepeatsAppend(s.db.rotated, TokenOf(s, e));
    } else {
      assert s.db.rotated + [] == s.db.rotated;
    }
  }

  lemma AgainExactly(s: State, e: Event)
    requires Inv(s)
    ensures RotatesAgain(s, e) <==> Spends(Forgetful, s, e) && TokenOf(s, e) in s.db.rotated
  {
    assert Holds(Families, s.db);
  }

  /**
   When a refresh token is rotated twice: exactly when some rotation reaches its spend after the
   deadline of the entry an earlier rotation of the same token left.
   */
  lemma {:induction false} RotationRepeatsExactly(cfg: Config, events: seq<Event>)
    ensures Repeats(Run(Forgetful, cfg, events).db.rotated) <==> Happens(cfg, events, RotatesAgain)
    decreases |events|
  {
    if events != [] {
      var before, e := events[..|events| - 1], events[|events| - 1];
      RotationRepeatsExactly(cfg, before);
      HappensLast(cfg, events, RotatesAgain);
      RunInv(Forgetful, cfg, before);
      StepRepeats(Run(Forgetful, cfg, before), e);
    }
  }

  // ----- one live refresh token per login -----

  /** An issued refresh token that can still be rotated. */
  predicate LiveRefresh(db: Db, t: Token) {
    Parses(db, t, Refresh) && !Blacklisted(Forgetful, db, t)
  }

  /** The tokens descended from one login include at most one live refresh token. */
  ghost predicate OneLive(db: Db) {
    forall a, b | LiveRefresh(db, a) && LiveRefresh(db, b) && db.origin[a].root == db.origin[b].root :: a == b
  }

  /** Another live refresh token of the same login. */
  ghost predicate OtherLive(db: Db, t: Token) {
    exists x :: x != t && LiveRefresh(db, x) && t in db.origin && db.origin[x].root == db.origin[t].root
  }

  /** The spend goes through while the login has another live refresh token, and hands out an unexpired one. */
  ghost predicate Forks(s: State, e: Event) {
    && Spends(Forgetful, s, e) && s.db.now < PcOf(s, e.call).refresh.exp
    && OtherLive(s.db, TokenOf(s, e))
  }

  /** What is live stays so or not; it never becomes live again. */
  lemma LiveShrinks(db: Db, db': Db, t: Token)
    requires BlacklistOk(db') && db.now <= db'.now && db.blacklist.Keys <= db'.blacklist.Keys
    requires t in db.origin && LiveRefresh(db', t)
    ensures LiveRefresh(db, t)
  {
    UnexpiredIsRemembered(Forgetful, db', t);
  }

  lemma SameOriginOneLive(db: Db, db': Db)
    requires OneLive(db) && db'.origin == db.origin
    requires BlacklistOk(db') && db.now <= db'.now && db.blacklist.Keys <= db'.blacklist.Keys
    ensures OneLive(db')
  {
    forall t | LiveRefresh(db', t) ensures LiveRefresh(db, t) {
      LiveShrinks(db, db', t);
    }
  }

  lemma NewLoginOneLive(db: Db, db': Db, call: CallId, access: Token, refresh: Token, o: Origin)
    requires OneLive(db) && TokensOk(db) && BlacklistOk(db') && o.root == call && call !in db.issuers
    requires db'.origin == db.origin[access := o][refresh := o] && access.kind == Access
    requires db'.now == db.now && db'.blacklist == db.blacklist
    ensures OneLive(db')
  {
    forall t | LiveRefresh(db', t) && t != refresh ensures LiveRefresh(db, t) && db'.origin[t] == db.origin[t] {
      LiveShrinks(db, db', t);
    }
  }

  lemma SignOneLive(db: Db, call: CallId, pc: Pc, ja: Jti, jr: Jti)
    requires OneLive(db) && DbInv(db) && PcOk(db, call, pc)
    ensures OneLive(DoSign(db, call, pc, ja, jr).0)
  {
    SignSound(db, call, pc, ja, jr);
    if pc.Signing? && FreshPair(db, ja, jr) {
      var db' := DoSign(db, call, pc, ja, jr).0;
      OpenInv(db);
      OpenInv(db');
      NewLoginOneLive(db, db', call, NewAccess(db, pc.user, pc.version, ja), NewRefresh(db, pc.user, pc.version, jr),
                      Origin(call, pc.hash));
    }
  }

  /** Which tokens are live after a spend. */
  lemma LiveAfterSpend(db: Db, call: CallId, pc: Pc, t: Token)
    requires BlacklistOk(db) && TokensOk(db) && PcOk(db, call, pc) && pc.Consuming?
    ensures LiveRefresh(Spend(db, call, pc), t) <==>
            if t == pc.refresh then db.now < t.exp else t != pc.token && LiveRefresh(db, t)
  {
    ClaimedIsNew(db, call, pc.access);
    ClaimedIsNew(db, call, pc.refresh);
  }

  lemma SpendOneLive(db: Db, call: CallId, pc: Pc)
    requires OneLive(db) && BlacklistOk(db) && TokensOk(db) && PcOk(db, call, pc) && pc.Consuming?
    ensures OneLive(Spend(db, call, pc)) <==> !(db.now < pc.refresh.exp && OtherLive(db, pc.token))
  {
    var db' := Spend(db, call, pc);
    ClaimedIsNew(db, call, pc.access);
    ClaimedIsNew(db, call, pc.refresh);
    forall t ensures LiveRefresh(db', t) <==>
                     if t == pc.refresh then db.now < t.exp else t != pc.token && LiveRefresh(db, t) {
      LiveAfterSpend(db, call, pc, t);
    }
    if db.now < pc.refresh.exp && OtherLive(db, pc.token) {
      var x :| x != pc.token && LiveRefresh(db, x) && db.origin[x].root == db.origin[pc.token].root;
      assert LiveRefresh(db', x) && LiveRefresh(db', pc.refresh) && x != pc.refresh;
    }
  }

  /** Only a login and a rotation hand out tokens. */
  lemma ActOrigins(m: Memory, db: Db, call: CallId, pc: Pc, a: Action)
    requires !a.Sign? && !(a == Consume(true) && pc.Consuming? && !Blacklisted(m, db, pc.token))
    ensures Act(m, db, call, pc, a).0.origin == db.origin
  {
    if a.RegisterCreate? || a.RefreshSign? || a.LogoutWrite? {
    } else if a.ResetStore? || a.ResetSwap? || a.ResetClean? {
    } else if !a.Consume? {
      ReadRotates(m, db, call, pc, a);
    }
  }

  lemma SpendAct(db: Db, call: CallId, pc: Pc)
    requires pc.Consuming? && pc.token in db.origin && !Blacklisted(Forgetful, db, pc.token)
    ensures Act(Forgetful, db, call, pc, Consume(true)) == (Spend(db, call, pc), Finished)
  {
  }

  /** An action that hands nothing out can only take liveness away. */
  lemma ActQuiet(db: Db, call: CallId, pc: Pc, a: Action)
    requires DbInv(db) && PcOk(db, call, pc)
    requires !a.Sign? && !(a == Consume(true) && pc.Consuming? && !Blacklisted(Forgetful, db, pc.token))
    ensures var db' := Act(Forgetful, db, call, pc, a).0;
            && db'.origin == db.origin && BlacklistOk(db')
            && db.now <= db'.now && db.blacklist.Keys <= db'.blacklist.Keys
  {
    ActOrigins(Forgetful, db, call, pc, a);
    ActKeeps(Forgetful, db, call, pc, a);
    assert Holds(Blacklisting, Act(Forgetful, db, call, pc, a).0);
  }

  lemma ActOneLive(db: Db, call: CallId, pc: Pc, a: Action)
    requires OneLive(db) && DbInv(db) && PcOk(db, call, pc)
    ensures var forks := && a == Consume(true) && pc.Consuming? && !Blacklisted(Forgetful, db, pc.token)
                         && db.now < pc.refresh.exp && OtherLive(db, pc.token);
            OneLive(Act(Forgetful, db, call, pc, a).0) <==> !forks
  {
    if a.Sign? {
      SignOneLive(db, call, pc, a.jtiAccess, a.jtiRefresh);
    } else if a == Consume(true) && pc.Consuming? && !Blacklisted(Forgetful, db, pc.token) {
      assert Holds(Blacklisting, db) && Holds(Tokens, db);
      SpendAct(db, call, pc);
      SpendOneLive(db, call, pc);
    } else {
      ActQuiet(db, call, pc, a);
      SameOriginOneLive(db, Act(Forgetful, db, call, pc, a).0);
    }
  }

  lemma StepOneLive(s: State, e: Event)
    requires Inv(s) && OneLive(s.db)
    ensures OneLive(Apply(Forgetful, s, e).db) <==> !Forks(s, e)
  {
    if e.Do? {
      ActOneLive(s.db, e.call, PcOf(s, e.call), e.action);
    } else {
      ApplyKeeps(Forgetful, s, e);
      assert Holds(Blacklisting, Apply(Forgetful, s, e).db);
      SameOriginOneLive(s.db, Apply(Forgetful, s, e).db);
    }
  }

  /** At this and every earlier point of the run each login has at most one live refresh token. */
  ghost predicate AlwaysOneLive(cfg: Config, events: seq<Event>)
    decreases |events|
  {
    OneLive(Run(Forgetful, cfg, events).db) && (events != [] ==> AlwaysOneLive(cfg, events[..|events| - 1]))
  }

  /**
   One live refresh token per login, exactly: it holds throughout a run if and only if no
   rotation's spend goes through while its login has another live refresh token and the one it
   is about to hand out has not expired.
   */
  lemma {:induction false} OneLiveRefreshExactly(cfg: Config, events: seq<Event>)
    ensures AlwaysOneLive(cfg, events) <==> !Happens(cfg, events, Forks)
    decreases |events|
  {
    if events == [] {
      assert Run(Forgetful, cfg, []) == Start(cfg);
    } else {
      var before, e := events[..|events| - 1], events[|events| - 1];
      OneLiveRefreshExactly(cfg, before);
      HappensLast(cfg, events, Forks);
      if AlwaysOneLive(cfg, before) {
        RunInv(Forgetful, cfg, before);
        StepOneLive(Run(Forgetful, cfg, before), e);
      }
    }
  }

  /**
   As long as no rotation reaches its spend after the deadline of an entry of its token, one login
   has at most one live refresh token and no refresh token is rotated twice.
   */
  lemma OneLiveRefreshPerLogin(cfg: Config, events: seq<Event>)
    requires !Happens(cfg, events, Respends)
    ensures OneLive(Run(Forgetful, cfg, events).db) && !Repeats(Run(Forgetful, cfg, events).db.rotated)
  {
    RespentMeans(cfg, events);
    RunInv(Forgetful, cfg, events);
    var db := Run(Forgetful, cfg, events).db;
    OpenInv(db);
    forall a | LiveRefresh(db, a) ensures Unspent(db, a) {
      UnexpiredIsRemembered(Forgetful, db, a);
    }
  }

  // ----- logout -----

  lemma BlacklistGrows(m: Memory, s: State, e: Event)
    requires Inv(s)
    ensures s.db.blacklist.Keys <= Apply(m, s, e).db.blacklist.Keys
  {
    if e.Do? {
      ActGrows(m, s, e.call, e.action);
    }
  }

  lemma LoggedOutStays(m: Memory, s: State, e: Event, call: CallId)
    requires PcOf(s, call).LoggedOut?
    ensures PcOf(Apply(m, s, e), call) == PcOf(s, call)
  {
  }

  lemma {:induction false} LoggedOutForever(m: Memory, s: State, later: seq<Event>, call: CallId)
    requires Inv(s) && PcOf(s, call).LoggedOut?
    ensures PcOf(RunFrom(m, s, later), call) == PcOf(s, call) && Inv(RunFrom(m, s, later))
    decreases |later|
  {
    if later != [] {
      LoggedOutForever(m, s, later[..|later| - 1], call);
      ApplyKeeps(m, RunFrom(m, s, later[..|later| - 1]), later[|later| - 1]);
      LoggedOutStays(m, RunFrom(m, s, later[..|later| - 1]), later[|later| - 1], call);
    }
  }

  /** The token was presented to a finished logout under its own kind. */
  ghost predicate LoggedOutWith(s: State, call: CallId, t: Token) {
    PcOf(s, call).LoggedOut? && Presented(t.kind, Some(t)) in PcOf(s, call).all
  }

  lemma LoggedOutIsListed(s: State, call: CallId, t: Token)
    requires Inv(s) && LoggedOutWith(s, call, t)
    ensures t in s.db.origin && (t in s.db.blacklist || t.exp <= s.db.now)
  {
    var pc := PcOf(s, call);
    assert PcOk(s.db, call, pc);
    var i :| 0 <= i < |pc.all| && pc.all[i] == Presented(t.kind, Some(t));
    assert Settled(s.db, pc.all[i]);
  }

  /** A pending rotation of this token would go through. */
  predicate WouldSpend(m: Memory, db: Db, call: CallId, pc: Pc)
    requires pc.Consuming?
  {
    DoConsume(m, db, call, pc, true).0.rotated == db.rotated + [pc.token]
  }

  lemma SpendGuard(m: Memory, db: Db, call: CallId, pc: Pc)
    requires pc.Consuming? && pc.token in db.origin
    ensures WouldSpend(m, db, call, pc) <==> !Blacklisted(m, db, pc.token)
  {
    ConsumeEffect(m, db, call, pc);
    assert |db.rotated + [pc.token]| != |db.rotated + []|;
  }

  lemma {:induction false} KeysGrow(m: Memory, s: State, later: seq<Event>, t: Token)
    requires Inv(s) && t in s.db.blacklist
    ensures Inv(RunFrom(m, s, later)) && t in RunFrom(m, s, later).db.blacklist
    decreases |later|
  {
    if later != [] {
      KeysGrow(m, s, later[..|later| - 1], t);
      ApplyKeeps(m, RunFrom(m, s, later[..|later| - 1]), later[|later| - 1]);
      BlacklistGrows(m, RunFrom(m, s, later[..|later| - 1]), later[|later| - 1]);
    }
  }

  /**
   After a successful `Logout`, in every later state a token it was given, unexpired when the logout
   ended, stays listed and passes no check while it would still parse. A rotation or an
   `Authenticate` that had parsed it before still gets past the blacklist if and only if the
   entry has been forgotten, that is when its deadline, which is not before the token's
   expiry, has passed.
   */
  lemma LogoutRefusesExactly(m: Memory, cfg: Config, events: seq<Event>, later: seq<Event>, call: CallId, t: Token)
    requires var s := Run(m, cfg, events); LoggedOutWith(s, call, t) && s.db.now < t.exp
    ensures var db := Run(m, cfg, events + later).db;
            && t in db.blacklist && t.exp <= db.blacklist[t]
            && (Parses(db, t, t.kind) ==> Blacklisted(m, db, t))
            && (forall other: CallId, pc: Pc | pc.Consuming? && pc.token == t ::
                  WouldSpend(m, db, other, pc) <==> m == Forgetful && db.blacklist[t] < db.now)
            && (DoAuthLookup(m, db, AuthParsed(t)) == AuthCleared(t, true) <==>
                  m == Forgetful && db.blacklist[t] < db.now)
            && (DoAuthLookup(m, db, AuthParsed(t)) == Finished <==> Blacklisted(m, db, t))
  {
    RunInv(m, cfg, events);
    RunExtends(m, cfg, events, later);
    var s := Run(m, cfg, events);
    LoggedOutIsListed(s, call, t);
    KeysGrow(m, s, later, t);
    var db := RunFrom(m, s, later).db;
    OpenInv(db);
    forall other: CallId, pc: Pc | pc.Consuming? && pc.token == t
      ensures WouldSpend(m, db, other, pc) <==> m == Forgetful && db.blacklist[t] < db.now
    {
      SpendGuard(m, db, other, pc);
    }
  }

  /** The step spends this very token after the deadline of its entry. */
  predicate RespendsThe(t: Token, s: State, e: Event) {
    Respends(s, e) && TokenOf(s, e) == t
  }

  lemma RotationsOf(s: State, e: Event, t: Token)
    requires Inv(s) && t in s.db.blacklist
    ensures multiset(Apply(Forgetful, s, e).db.rotated)[t] ==
            multiset(s.db.rotated)[t] + if RespendsThe(t, s, e) then 1 else 0
  {
    StepRotates(Forgetful, s, e);
  }

  /**
   A listed token, revoked or spent, is rotated in the rest of a run if and only if some rotation
   reaches its spend after the deadline of the token's entry.
   */
  lemma {:induction false} ListedRotatesExactly(s: State, later: seq<Event>, t: Token)
    requires Inv(s) && t in s.db.blacklist
    ensures multiset(s.db.rotated)[t] <= multiset(RunFrom(Forgetful, s, later).db.rotated)[t]
    ensures multiset(s.db.rotated)[t] < multiset(RunFrom(Forgetful, s, later).db.rotated)[t] <==>
            HappensFrom(s, later, (x, e) => RespendsThe(t, x, e))
    decreases |later|
  {
    if later != [] {
      var before, e := later[..|later| - 1], later[|later| - 1];
      ListedRotatesExactly(s, before, t);
      KeysGrow(Forgetful, s, before, t);
      RotationsOf(RunFrom(Forgetful, s, before), e, t);
      HappensFromLast(s, later, (x, e) => RespendsThe(t, x, e));
    }
  }

  /**
   The refresh token a logout was given is not rotated in the rest of the run if and only if no
   rotation that had parsed it before reaches its spend after the entry's deadline. What
   becomes of the session, which other rotations may keep alive, is `SessionEndsExactly`.
   */
  lemma LogoutHoldsExactly(cfg: Config, events: seq<Event>, later: seq<Event>, call: CallId, t: Token)
    requires var s := Run(Forgetful, cfg, events); LoggedOutWith(s, call, t) && s.db.now < t.exp
    ensures multiset(Run(Forgetful, cfg, events + later).db.rotated)[t] ==
            multiset(Run(Forgetful, cfg, events).db.rotated)[t]
            <==> !HappensFrom(Run(Forgetful, cfg, events), later, (x, e) => RespendsThe(t, x, e))
  {
    RunInv(Forgetful, cfg, events);
    RunExtends(Forgetful, cfg, events, later);
    LoggedOutIsListed(Run(Forgetful, cfg, events), call, t);
    ListedRotatesExactly(Run(Forgetful, cfg, events), later, t);
  }

  // ----- the session -----

  /** The login has no live refresh token. */
  ghost predicate NoLive(db: Db, root: CallId) {
    forall t | LiveRefresh(db, t) :: db.origin[t].root != root
  }

  /** A spend of one of the login's refresh tokens goes through and hands out an unexpired one. */
  predicate Revives(root: CallId, s: State, e: Event) {
    && Spends(Forgetful, s, e) && TokenOf(s, e) in s.db.origin && s.db.origin[TokenOf(s, e)].root == root
    && s.db.now < PcOf(s, e.call).refresh.exp
  }

  /** At this and every earlier point since `s` the login has no live refresh token. */
  ghost predicate StaysDead(s: State, later: seq<Event>, root: CallId)
    decreases |later|
  {
    NoLive(RunFrom(Forgetful, s, later).db, root) && (later != [] ==> StaysDead(s, later[..|later| - 1], root))
  }

  lemma SameOriginNoLive(db: Db, db': Db, root: CallId)
    requires NoLive(db, root) && db'.origin == db.origin
    requires BlacklistOk(db') && db.now <= db'.now && db.blacklist.Keys <= db'.blacklist.Keys
    ensures NoLive(db', root)
  {
    forall t | LiveRefresh(db', t) ensures db'.origin[t].root != root {
      LiveShrinks(db, db', t);
    }
  }

  lemma SignNoLive(db: Db, call: CallId, pc: Pc, ja: Jti, jr: Jti, root: CallId)
    requires NoLive(db, root) && root in db.issuers && DbInv(db) && PcOk(db, call, pc)
    ensures NoLive(DoSign(db, call, pc, ja, jr).0, root)
  {
    SignSound(db, call, pc, ja, jr);
    if pc.Signing? && FreshPair(db, ja, jr) {
      var db' := DoSign(db, call, pc, ja, jr).0;
      assert Holds(Blacklisting, db');
      NewLoginNoLive(db, db', call, NewAccess(db, pc.user, pc.version, ja), NewRefresh(db, pc.user, pc.version, jr),
                     Origin(call, pc.hash), root);
    }
  }

  lemma NewLoginNoLive(db: Db, db': Db, call: CallId, access: Token, refresh: Token, o: Origin, root: CallId)
    requires NoLive(db, root) && root in db.issuers && BlacklistOk(db') && o.root == call && call !in db.issuers
    requires db'.origin == db.origin[access := o][refresh := o]
    requires db'.now == db.now && db'.blacklist == db.blacklist
    ensures NoLive(db', root)
  {
    forall t | LiveRefresh(db', t) && t != access && t != refresh ensures db'.origin[t].root != root {
      LiveShrinks(db, db', t);
    }
  }

  lemma SpendNoLive(db: Db, call: CallId, pc: Pc, root: CallId)
    requires NoLive(db, root) && BlacklistOk(db) && TokensOk(db) && PcOk(db, call, pc) && pc.Consuming?
    ensures NoLive(Spend(db, call, pc), root) <==> !(db.origin[pc.token].root == root && db.now < pc.refresh.exp)
  {
    var db' := Spend(db, call, pc);
    ClaimedIsNew(db, call, pc.access);
    ClaimedIsNew(db, call, pc.refresh);
    LiveAfterSpend(db, call, pc, pc.refresh);
    forall t | LiveRefresh(db', t) && t != pc.refresh ensures LiveRefresh(db, t) && db'.origin[t] == db.origin[t] {
      LiveAfterSpend(db, call, pc, t);
    }
  }

  lemma ActNoLive(db: Db, call: CallId, pc: Pc, a: Action, root: CallId)
    requires NoLive(db, root) && root in db.issuers && DbInv(db) && PcOk(db, call, pc)
    ensures var revives := && a == Consume(true) && pc.Consuming? && !Blacklisted(Forgetful, db, pc.token)
                           && db.origin[pc.token].root == root && db.now < pc.refresh.exp;
            NoLive(Act(Forgetful, db, call, pc, a).0, root) <==> !revives
  {
    if a.Sign? {
      SignNoLive(db, call, pc, a.jtiAccess, a.jtiRefresh, root);
    } else if a == Consume(true) && pc.Consuming? && !Blacklisted(Forgetful, db, pc.token) {
      assert Holds(Blacklisting, db) && Holds(Tokens, db);
      SpendAct(db, call, pc);
      SpendNoLive(db, call, pc, root);
    } else {
      ActQuiet(db, call, pc, a);
      SameOriginNoLive(db, Act(Forgetful, db, call, pc, a).0, root);
    }
  }

  lemma StepNoLive(s: State, e: Event, root: CallId)
    requires Inv(s) && NoLive(s.db, root) && root in s.db.issuers
    ensures NoLive(Apply(Forgetful, s, e).db, root) <==> !Revives(root, s, e)
  {
    if e.Do? {
      assert PcOk(s.db, e.call, PcOf(s, e.call));
      ActNoLive(s.db, e.call, PcOf(s, e.call), e.action, root);
    } else {
      ApplyKeeps(Forgetful, s, e);
      assert Holds(Blacklisting, Apply(Forgetful, s, e).db);
      SameOriginNoLive(s.db, Apply(Forgetful, s, e).db, root);
    }
  }

  lemma {:induction false} IssuersGrow(s: State, later: seq<Event>, root: CallId)
    requires Inv(s) && root in s.db.issuers
    ensures Inv(RunFrom(Forgetful, s, later)) && root in RunFrom(Forgetful, s, later).db.issuers
    decreases |later|
  {
    if later != [] {
      var before, e := later[..|later| - 1], later[|later| - 1];
      IssuersGrow(s, before, root);
      ApplyKeeps(Forgetful, RunFrom(Forgetful, s, before), e);
      if e.Do? {
        ActGrows(Forgetful, RunFrom(Forgetful, s, before), e.call, e.action);
      }
    }
  }

  /**
   A login without a live refresh token stays without one for the rest of the run if and only if no
   spend of one of its refresh tokens goes through that hands out an unexpired one.
   */
  lemma {:induction false} DeadStaysDeadExactly(s: State, later: seq<Event>, root: CallId)
    requires Inv(s) && NoLive(s.db, root) && root in s.db.issuers
    ensures StaysDead(s, later, root) <==> !HappensFrom(s, later, (x, e) => Revives(root, x, e))
    decreases |later|
  {
    if later != [] {
      var before, e := later[..|later| - 1], later[|later| - 1];
      DeadStaysDeadExactly(s, before, root);
      HappensFromLast(s, later, (x, e) => Revives(root, x, e));
      if StaysDead(s, before, root) {
        IssuersGrow(s, before, root);
        StepNoLive(RunFrom(Forgetful, s, before), e, root);
      }
    }
  }

  /**
   What a logout does to its session: given the login's only live refresh token, a finished
   logout has ended the session, and it stays ended for the rest of the run if and only if
   no spend, of this or an earlier refresh token of the login, goes through that hands
   out an unexpired one.
   */
  lemma SessionEndsExactly(cfg: Config, events: seq<Event>, later: seq<Event>, call: CallId, t: Token)
    requires var s := Run(Forgetful, cfg, events); LoggedOutWith(s, call, t) && !OtherLive(s.db, t)
    ensures var s := Run(Forgetful, cfg, events);
            && t in s.db.origin
            && var root := s.db.origin[t].root;
               && NoLive(s.db, root)
               && (StaysDead(s, later, root) <==> !HappensFrom(s, later, (x, e) => Revives(root, x, e)))
  {
    var s := Run(Forgetful, cfg, events);
    RunInv(Forgetful, cfg, events);
    LoggedOutIsDead(s, call, t);
    DeadStaysDeadExactly(s, later, s.db.origin[t].root);
  }

  lemma LoggedOutIsDead(s: State, call: CallId, t: Token)
    requires Inv(s) && LoggedOutWith(s, call, t) && !OtherLive(s.db, t)
    ensures t in s.db.origin && s.db.origin[t].root in s.db.issuers && NoLive(s.db, s.db.origin[t].root)
  {
    LoggedOutIsListed(s, call, t);
    OpenInv(s.db);
    forall x | LiveRefresh(s.db, x) ensures s.db.origin[x].root != s.db.origin[t].root {
      UnexpiredIsRemembered(Forgetful, s.db, x);
    }
  }
}
