/** Runs in which a rotation outlives the token it is about to spend, and what then goes wrong. */
module AuthEscapes {
  import opened Options
  import opened AuthModel
  import opened AuthProofs
  import opened AuthRotation
  import opened AuthForgetting
  import opened AuthService
  import opened AuthCalls

  /** One call of a refresh, up to the point where it is about to spend its token. */
  function UpToConsume(call: CallId, t: Token, ja: Jti, jr: Jti): seq<Event> {
    [Do(call, RefreshParse(t)), Do(call, RefreshReadUser)] + [Do(call, RefreshSign(ja, jr))]
  }

  /** What the call then holds. */
  function Held(db: Db, t: Token, ja: Jti, jr: Jti): Pc {
    Consuming(t, t.exp - db.now, NewAccess(db, t.user, t.version, ja), NewRefresh(db, t.user, t.version, jr))
  }

  lemma ReachesConsume(s: State, call: CallId, t: Token, ja: Jti, jr: Jti) returns (events: seq<Event>)
    requires PcOf(s, call) == Idle && Parses(s.db, t, Refresh) && RowAdmits(s.db, t) && FreshPair(s.db, ja, jr)
    ensures var s' := RunFrom(Forgetful, s, events);
            && s'.db == ClaimPair(s.db, call, ja, jr) && PcOf(s', call) == Held(s.db, t, ja, jr)
            && (forall other | other != call :: PcOf(s', other) == PcOf(s, other))
  {
    var start := [Do(call, RefreshParse(t)), Do(call, RefreshReadUser)];
    RefreshStarts(Forgetful, s, call, t);
    var s1 := RunFrom(Forgetful, s, start);
    FromConcat(Forgetful, s, start, [Do(call, RefreshSign(ja, jr))]);
    RunOne(Forgetful, s1, Do(call, RefreshSign(ja, jr)));
    var s2 := ActStep(Forgetful, s1, call, RefreshSign(ja, jr));
    events := UpToConsume(call, t, ja, jr);
  }

  /** Time passes, then the held-up call spends: nothing remembers its token any more. */
  lemma HeldUpSpends(s: State, call: CallId, ms: nat)
    requires var pc := PcOf(s, call);
             && pc.Consuming? && pc.token in s.db.origin
             && (pc.token in s.db.blacklist ==> s.db.blacklist[pc.token] < s.db.now + ms)
    ensures RunFrom(Forgetful, s, [Tick(ms), Do(call, Consume(true))]).db ==
            Spend(s.db.(now := s.db.now + ms), call, PcOf(s, call))
  {
    RunTwo(Forgetful, s, Tick(ms), Do(call, Consume(true)));
    var s1 := Apply(Forgetful, s, Tick(ms));
    assert PcOf(s1, call) == PcOf(s, call);
    ForgottenSpends(s1, call);
  }

  lemma ForgottenSpends(s: State, call: CallId)
    requires PcOf(s, call).Consuming? && PcOf(s, call).token in s.db.origin
    requires !Blacklisted(Forgetful, s.db, PcOf(s, call).token)
    ensures Apply(Forgetful, s, Do(call, Consume(true))).db == Spend(s.db, call, PcOf(s, call))
  {
    var s' := ActStep(Forgetful, s, call, Consume(true));
  }

  lemma SpendsNow(s: State, call: CallId) returns (s': State)
    requires PcOf(s, call).Consuming? && PcOf(s, call).token in s.db.origin && PcOf(s, call).token !in s.db.blacklist
    ensures s' == RunFrom(Forgetful, s, [Do(call, Consume(true))]) && s'.db == Spend(s.db, call, PcOf(s, call))
    ensures forall other | other != call :: PcOf(s', other) == PcOf(s, other)
  {
    RunOne(Forgetful, s, Do(call, Consume(true)));
    s' := ActStep(Forgetful, s, call, Consume(true));
  }

  /** A refresh token that can be rotated, two idle calls and four new token ids. */
  ghost predicate Ready(s: State, c1: CallId, c2: CallId, t: Token, j: Jti) {
    && c1 != c2 && PcOf(s, c1) == Idle && PcOf(s, c2) == Idle
    && Parses(s.db, t, Refresh) && RowAdmits(s.db, t) && t !in s.db.blacklist
    && FreshPair(s.db, j, j + 1) && FreshPair(s.db, j + 2, j + 3)
  }

  /** Two rotations of `t` are about to spend it. */
  lemma BothPending(s: State, c1: CallId, c2: CallId, t: Token, j: Jti) returns (events: seq<Event>)
    requires Ready(s, c1, c2, t, j)
    ensures var out := RunFrom(Forgetful, s, events);
            && PcOf(out, c1) == Held(s.db, t, j, j + 1) && PcOf(out, c2) == Held(s.db, t, j + 2, j + 3)
            && out.db == ClaimPair(ClaimPair(s.db, c1, j, j + 1), c2, j + 2, j + 3)
            && (forall other | other != c1 && other != c2 :: PcOf(out, other) == PcOf(s, other))
  {
    var first := ReachesConsume(s, c1, t, j, j + 1);
    var second := ReachesConsume(RunFrom(Forgetful, s, first), c2, t, j + 2, j + 3);
    events := first + second;
    FromConcat(Forgetful, s, first, second);
  }

  /** The first of the two has spent it; the second is still about to. */
  lemma SecondPending(s: State, c1: CallId, c2: CallId, t: Token, j: Jti) returns (events: seq<Event>)
    requires Ready(s, c1, c2, t, j)
    ensures var out := RunFrom(Forgetful, s, events);
            && PcOf(out, c2) == Held(s.db, t, j + 2, j + 3)
            && out.db == Spend(ClaimPair(ClaimPair(s.db, c1, j, j + 1), c2, j + 2, j + 3), c1, Held(s.db, t, j, j + 1))
            && (forall other | other != c1 && other != c2 :: PcOf(out, other) == PcOf(s, other))
  {
    var both := BothPending(s, c1, c2, t, j);
    var out := SpendsNow(RunFrom(Forgetful, s, both), c1);
    events := both + [Do(c1, Consume(true))];
    FromConcat(Forgetful, s, both, [Do(c1, Consume(true))]);
  }

  /** From any such state there is a run that rotates the token twice, the second time late. */
  lemma LateRotationCanRepeat(s: State, c1: CallId, c2: CallId, t: Token, j: Jti) returns (events: seq<Event>)
    requires Ready(s, c1, c2, t, j)
    ensures RunFrom(Forgetful, s, events).db.rotated == s.db.rotated + [t] + [t]
  {
    var race := SecondPending(s, c1, c2, t, j);
    var wait := t.exp - s.db.now + 1;
    HeldUpSpends(RunFrom(Forgetful, s, race), c2, wait);
    events := race + [Tick(wait), Do(c2, Consume(true))];
    FromConcat(Forgetful, s, race, [Tick(wait), Do(c2, Consume(true))]);
  }

  /** A rotation is held up, and then a logout of the same token succeeds. */
  lemma LogoutDuringRotation(s: State, c1: CallId, c2: CallId, t: Token, j: Jti) returns (events: seq<Event>)
    requires Ready(s, c1, c2, t, j)
    ensures var out := RunFrom(Forgetful, s, events);
            && LoggedOutWith(out, c2, t) && PcOf(out, c1) == Held(s.db, t, j, j + 1)
            && out.db == Revoke(ClaimPair(s.db, c1, j, j + 1), t, t.exp - s.db.now)
  {
    var race := ReachesConsume(s, c1, t, j, j + 1);
    var s1 := RunFrom(Forgetful, s, race);
    var logout := LogoutOf(s1, c2, t);
    events := race + logout;
    FromConcat(Forgetful, s, race, logout);
  }

  /** A logout with a refresh token alone. */
  lemma LogoutOf(s: State, call: CallId, t: Token) returns (events: seq<Event>)
    requires PcOf(s, call) == Idle && Parses(s.db, t, Refresh)
    ensures var out := RunFrom(Forgetful, s, events);
            && LoggedOutWith(out, call, t) && out.db == Revoke(s.db, t, t.exp - s.db.now)
            && (forall other | other != call :: PcOf(out, other) == PcOf(s, other))
  {
    LogoutIsRun(Forgetful, s, call, Missing, Signed(t));
    events := LogoutSteps(s.db, call, Missing, Signed(t));
    assert Both(Missing, Signed(t))[0] == Presented(Refresh, Some(t));
  }

  /** What the spend of a token leaves behind. */
  lemma SpendLeaves(db: Db, call: CallId, pc: Pc)
    requires pc.Consuming? && pc.token in db.origin && pc.access.kind == Access && pc.refresh.kind == Refresh
    ensures var db' := Spend(db, call, pc);
            && db'.rotated == db.rotated + [pc.token] && db'.now == db.now
            && pc.token in db'.origin && pc.refresh in db'.origin
            && (pc.refresh != pc.token && pc.access != pc.token ==> db'.origin[pc.refresh] == db'.origin[pc.token])
            && (pc.refresh != pc.token && pc.refresh !in db.blacklist && db.now < pc.refresh.exp ==>
                  LiveRefresh(db', pc.refresh))
  {
  }

  /**
   From any such state: a logout of the token succeeds while a rotation of it is held up past its
   expiry; the rotation then goes through, and the refresh token it hands out belongs to the
   session that was logged out.
   */
  lemma LogoutCanBeOutlived(s: State, c1: CallId, c2: CallId, t: Token, j: Jti)
      returns (logout: seq<Event>, later: seq<Event>)
    requires Ready(s, c1, c2, t, j)
    ensures var out := RunFrom(Forgetful, s, logout);
            LoggedOutWith(out, c2, t) && out.db.now == s.db.now && out.db.rotated == s.db.rotated
    ensures var db := RunFrom(Forgetful, s, logout + later).db;
            var r := NewRefresh(s.db, t.user, t.version, j + 1);
            && db.rotated == s.db.rotated + [t] && db.now == t.exp + 1
            && t in db.origin && r in db.origin && (r != t ==> db.origin[r] == db.origin[t])
            && (r != t && r !in s.db.blacklist && db.now < r.exp ==> LiveRefresh(db, r))
  {
    logout := LogoutDuringRotation(s, c1, c2, t, j);
    var out := RunFrom(Forgetful, s, logout);
    var wait := t.exp - s.db.now + 1;
    later := [Tick(wait), Do(c1, Consume(true))];
    HeldUpSpends(out, c1, wait);
    SpendLeaves(out.db.(now := t.exp + 1), c1, PcOf(out, c1));
    FromConcat(Forgetful, s, logout, later);
  }

  /** The stores after both rotations of `t`, with a logout of the first one's refresh token in between. */
  lemma SiblingStores(db: Db, c1: CallId, c2: CallId, t: Token, j: Jti)
    requires Parses(db, t, Refresh) && t !in db.blacklist && NewRefresh(db, t.user, t.version, j + 1) != t
    requires NewRefresh(db, t.user, t.version, j + 3) != t
    ensures var first, second := Held(db, t, j, j + 1), Held(db, t, j + 2, j + 3);
            var next, r := first.refresh, second.refresh;
            var spent := Spend(ClaimPair(ClaimPair(db, c1, j, j + 1), c2, j + 2, j + 3), c1, first);
            && next in spent.origin && t in spent.origin && spent.now == db.now && spent.rotated == db.rotated + [t]
            && spent.blacklist == db.blacklist[t := t.exp]
            && var out := Revoke(spent, next, next.exp - spent.now).(now := t.exp + 1);
               var after := Spend(out, c2, second);
               && after.rotated == db.rotated + [t] + [t]
               && next in after.origin && r in after.origin && after.origin[r].root == after.origin[next].root
               && (r !in db.blacklist && t.exp + 1 < r.exp ==> LiveRefresh(after, r))
  {
  }

  /**
   From any such state: while a second rotation of `t` is held up past its expiry, the first one's
   refresh token is logged out in time; the second rotation still goes through, and the
   session is alive although the token that was logged out is never rotated.
   */
  lemma SiblingOutlivesLogout(s: State, c1: CallId, c2: CallId, c3: CallId, t: Token, j: Jti)
      returns (logout: seq<Event>, later: seq<Event>)
    requires Ready(s, c1, c2, t, j) && c3 != c1 && c3 != c2 && PcOf(s, c3) == Idle
    requires var next, r := NewRefresh(s.db, t.user, t.version, j + 1), NewRefresh(s.db, t.user, t.version, j + 3);
             next != t && r != t && s.db.now < next.exp && r !in s.db.blacklist && t.exp + 1 < r.exp
    ensures var next, r := NewRefresh(s.db, t.user, t.version, j + 1), NewRefresh(s.db, t.user, t.version, j + 3);
            var out, db := RunFrom(Forgetful, s, logout), RunFrom(Forgetful, s, logout + later).db;
            && LoggedOutWith(out, c3, next) && out.db.now < next.exp && out.db.rotated == s.db.rotated + [t]
            && db.rotated == s.db.rotated + [t] + [t] && LiveRefresh(db, r)
            && next in db.origin && db.origin[r].root == db.origin[next].root
  {
    SiblingStores(s.db, c1, c2, t, j);
    logout := SiblingLoggedOut(s, c1, c2, c3, t, j);
    var wait := t.exp - s.db.now + 1;
    later := [Tick(wait), Do(c2, Consume(true))];
    HeldUpSpends(RunFrom(Forgetful, s, logout), c2, wait);
    FromConcat(Forgetful, s, logout, later);
  }

  lemma NextParses(spent: Db, db: Db, call: CallId, pc: Pc)
    requires pc.Consuming? && pc.token in db.origin && pc.refresh.kind == Refresh && db.now < pc.refresh.exp
    requires spent == Spend(db, call, pc)
    ensures Parses(spent, pc.refresh, Refresh) && spent.now == db.now
  {
  }

  lemma SiblingLoggedOut(s: State, c1: CallId, c2: CallId, c3: CallId, t: Token, j: Jti) returns (logout: seq<Event>)
    requires Ready(s, c1, c2, t, j) && c3 != c1 && c3 != c2 && PcOf(s, c3) == Idle
    requires NewRefresh(s.db, t.user, t.version, j + 1) != t && NewRefresh(s.db, t.user, t.version, j + 3) != t
    requires s.db.now < NewRefresh(s.db, t.user, t.version, j + 1).exp
    ensures var next, out := NewRefresh(s.db, t.user, t.version, j + 1), RunFrom(Forgetful, s, logout);
            var both := ClaimPair(ClaimPair(s.db, c1, j, j + 1), c2, j + 2, j + 3);
            && LoggedOutWith(out, c3, next) && PcOf(out, c2) == Held(s.db, t, j + 2, j + 3)
            && out.db == Revoke(Spend(both, c1, Held(s.db, t, j, j + 1)), next, next.exp - s.db.now)
  {
    var race := SecondPending(s, c1, c2, t, j);
    NextParses(RunFrom(Forgetful, s, race).db, ClaimPair(ClaimPair(s.db, c1, j, j + 1), c2, j + 2, j + 3), c1,
               Held(s.db, t, j, j + 1));
    var out := LogoutOf(RunFrom(Forgetful, s, race), c3, NewRefresh(s.db, t.user, t.version, j + 1));
    logout := race + out;
    FromConcat(Forgetful, s, race, out);
  }

  /** One call parses an access token, then another logs it out. */
  function ParseThenLogout(db: Db, c1: CallId, c2: CallId, t: Token): seq<Event> {
    [Do(c1, AuthParse(t))] + LogoutSteps(db, c2, Signed(t), Missing)
  }

  /** Time passes the token's expiry, and the first call goes on. */
  function LookupAfter(db: Db, c1: CallId, t: Token): seq<Event>
    requires db.now <= t.exp + 1
  {
    [Tick(t.exp - db.now + 1)] + [Do(c1, AuthLookup), Do(c1, AuthReadUser)]
  }

  lemma ParsedThenLoggedOut(m: Memory, s: State, c1: CallId, c2: CallId, t: Token)
    requires c1 != c2 && PcOf(s, c1) == Idle && PcOf(s, c2) == Idle && Parses(s.db, t, Access)
    ensures var out := RunFrom(m, s, ParseThenLogout(s.db, c1, c2, t));
            && LoggedOutWith(out, c2, t) && PcOf(out, c1) == AuthParsed(t)
            && out.db == Revoke(s.db, t, t.exp - s.db.now)
  {
    RunOne(m, s, Do(c1, AuthParse(t)));
    var s1 := ActStep(m, s, c1, AuthParse(t));
    LogoutIsRun(m, s1, c2, Signed(t), Missing);
    FromConcat(m, s, [Do(c1, AuthParse(t))], LogoutSteps(s.db, c2, Signed(t), Missing));
    assert Both(Signed(t), Missing)[1] == Presented(Access, Some(t));
  }

  /**
   From any state with an access token that `Authenticate` would accept: one call parses it, a logout of
   it succeeds, and once its entry has been forgotten the first call accepts it. Over a
   permanent blacklist the same events accept nothing, and nothing is rotated in either.
   */
  lemma LogoutMissedByAuthenticate(m: Memory, s: State, c1: CallId, c2: CallId, t: Token)
    requires c1 != c2 && PcOf(s, c1) == Idle && PcOf(s, c2) == Idle && Parses(s.db, t, Access) && RowAdmits(s.db, t)
    ensures var logout, later := ParseThenLogout(s.db, c1, c2, t), LookupAfter(s.db, c1, t);
            var out, db := RunFrom(m, s, logout), RunFrom(m, s, logout + later).db;
            && LoggedOutWith(out, c2, t) && out.db.now < t.exp && db.rotated == s.db.rotated
            && db.accepted == s.db.accepted + if m == Forgetful then [t] else []
  {
    var logout, later := ParseThenLogout(s.db, c1, c2, t), LookupAfter(s.db, c1, t);
    ParsedThenLoggedOut(m, s, c1, c2, t);
    LookupRevoked(m, s.db, RunFrom(m, s, logout), c1, t, later);
    FromConcat(m, s, logout, later);
  }

  lemma LookupRevoked(m: Memory, db: Db, out: State, call: CallId, t: Token, later: seq<Event>)
    requires Parses(db, t, Access) && RowAdmits(db, t) && out.db == Revoke(db, t, t.exp - db.now)
    requires PcOf(out, call) == AuthParsed(t) && later == LookupAfter(db, call, t)
    ensures var db' := RunFrom(m, out, later).db;
            db'.accepted == db.accepted + (if m == Forgetful then [t] else []) && db'.rotated == db.rotated
  {
    LookupLate(m, out, call, t, t.exp - db.now + 1);
  }

  lemma LookupLate(m: Memory, s: State, call: CallId, t: Token, ms: nat)
    requires PcOf(s, call) == AuthParsed(t) && RowAdmits(s.db, t)
    requires t in s.db.blacklist && s.db.blacklist[t] < s.db.now + ms
    ensures var db := RunFrom(m, s, [Tick(ms)] + [Do(call, AuthLookup), Do(call, AuthReadUser)]).db;
            db.accepted == s.db.accepted + (if m == Forgetful then [t] else []) && db.rotated == s.db.rotated
  {
    FromConcat(m, s, [Tick(ms)], [Do(call, AuthLookup), Do(call, AuthReadUser)]);
    RunOne(m, s, Tick(ms));
    var s1 := Apply(m, s, Tick(ms));
    assert PcOf(s1, call) == AuthParsed(t);
    RunTwo(m, s1, Do(call, AuthLookup), Do(call, AuthReadUser));
    var s2 := ActStep(m, s1, call, AuthLookup);
    var s3 := ActStep(m, s2, call, AuthReadUser);
    assert s.db.accepted + [] == s.db.accepted;
  }

  // ----- from the start -----

  /** The first registration, and some time after it. */
  function FirstEvents(phone: string, username: string, ms: nat): seq<Event> {
    [Do(0, RegisterCreate(0, username, phone, 0)), Do(0, Sign(0, 1))] + [Tick(ms)]
  }

  function FirstRefresh(cfg: Config): Token {
    Token(Refresh, 0, 1, 1, ExpiryOf(0, cfg.refreshMs))
  }

  function FirstAccess(cfg: Config): Token {
    Token(Access, 0, 1, 0, ExpiryOf(0, cfg.accessMs))
  }

  lemma FirstPair(m: Memory, cfg: Config, phone: string, username: string)
    ensures var s := RunFrom(m, Start(cfg), [Do(0, RegisterCreate(0, username, phone, 0)), Do(0, Sign(0, 1))]);
            && s.db == RegisterCall(Start(cfg).db, 0, 0, username, phone, 0, 0, 1)
            && (forall call | call != 0 :: PcOf(s, call) == Idle)
  {
    var s0, e1, e2 := Start(cfg), Do(0, RegisterCreate(0, username, phone, 0)), Do(0, Sign(0, 1));
    RegisterIsRun(m, s0, 0, 0, username, phone, 0, 0, 1);
    RunTwo(m, s0, e1, e2);
    var s1 := ActStep(m, s0, 0, RegisterCreate(0, username, phone, 0));
    var s2 := ActStep(m, s1, 0, Sign(0, 1));
  }

  lemma FirstStores(cfg: Config, phone: string, username: string)
    ensures var db := RegisterCall(Start(cfg).db, 0, 0, username, phone, 0, 0, 1);
            && FirstRefresh(cfg) in db.origin && RowAdmits(db, FirstRefresh(cfg)) && db.blacklist == map[]
            && FirstAccess(cfg) in db.origin && RowAdmits(db, FirstAccess(cfg)) && db.accepted == []
            && FreshPair(db, 2, 3) && FreshPair(db, 4, 5) && db.rotated == [] && db.now == 0 && db.cfg == cfg
  {
  }

  /** The state the first registration and a pause lead to. */
  lemma FirstState(m: Memory, cfg: Config, phone: string, username: string, ms: nat)
    ensures var s := Run(m, cfg, FirstEvents(phone, username, ms));
            && s.db == RegisterCall(Start(cfg).db, 0, 0, username, phone, 0, 0, 1).(now := ms)
            && (forall call | call != 0 :: PcOf(s, call) == Idle)
  {
    var pair := [Do(0, RegisterCreate(0, username, phone, 0)), Do(0, Sign(0, 1))];
    FirstPair(m, cfg, phone, username);
    FirstStores(cfg, phone, username);
    WaitRuns(m, Start(cfg), pair, ms);
    RunIsFrom(m, cfg, pair + [Tick(ms)]);
  }

  lemma WaitRuns(m: Memory, s: State, events: seq<Event>, ms: nat)
    ensures var before, after := RunFrom(m, s, events), RunFrom(m, s, events + [Tick(ms)]);
            && after.db == before.db.(now := before.db.now + ms)
            && (forall call :: PcOf(after, call) == PcOf(before, call))
  {
    FromConcat(m, s, events, [Tick(ms)]);
    RunOne(m, RunFrom(m, s, events), Tick(ms));
  }

  lemma RunIsFrom(m: Memory, cfg: Config, events: seq<Event>)
    ensures Run(m, cfg, events) == RunFrom(m, Start(cfg), events)
  {
    RunExtends(m, cfg, [], events);
    assert [] + events == events;
  }

  lemma FirstLogin(cfg: Config, phone: string, username: string, ms: nat)
    requires ms < ExpiryOf(0, cfg.refreshMs)
    ensures var s := Run(Forgetful, cfg, FirstEvents(phone, username, ms));
            && Ready(s, 1, 2, FirstRefresh(cfg), 2) && PcOf(s, 3) == Idle && s.db.now == ms && s.db.cfg == cfg
            && s.db.rotated == [] && s.db.blacklist == map[]
  {
    FirstState(Forgetful, cfg, phone, username, ms);
    FirstStores(cfg, phone, username);
  }

  /** A run that rotates one refresh token twice. */
  lemma RotationRepeatsWhenLate(cfg: Config, phone: string, username: string) returns (events: seq<Event>, t: Token)
    requires 1000 <= cfg.refreshMs
    ensures Run(Forgetful, cfg, events).db.rotated == [t, t]
  {
    var login := FirstEvents(phone, username, 0);
    FirstLogin(cfg, phone, username, 0);
    t := FirstRefresh(cfg);
    events := RepeatsAfter(cfg, login, t);
  }

  lemma RepeatsAfter(cfg: Config, login: seq<Event>, t: Token) returns (events: seq<Event>)
    requires Ready(Run(Forgetful, cfg, login), 1, 2, t, 2) && Run(Forgetful, cfg, login).db.rotated == []
    ensures Run(Forgetful, cfg, events).db.rotated == [t, t]
  {
    var race := LateRotationCanRepeat(Run(Forgetful, cfg, login), 1, 2, t, 2);
    RunExtends(Forgetful, cfg, login, race);
    events := login + race;
  }

  /** Call 2 logged the refresh token `t` out in time, and yet in `db`, later, `r` of the same login is live. */
  ghost predicate Outlived(out: State, db: Db, t: Token, r: Token) {
    && LoggedOutWith(out, 2, t) && out.db.now < t.exp && out.db.rotated == []
    && db.rotated == [t] && LiveRefresh(db, r)
    && t in db.origin && db.origin[r].root == db.origin[t].root
  }

  ghost predicate Survives(cfg: Config, events: seq<Event>, later: seq<Event>, t: Token, r: Token) {
    Outlived(Run(Forgetful, cfg, events), Run(Forgetful, cfg, events + later).db, t, r)
  }

  lemma OutlivedFrom(s: State, t: Token, r: Token) returns (logout: seq<Event>, rest: seq<Event>)
    requires Ready(s, 1, 2, t, 2) && s.db.rotated == [] && s.db.blacklist == map[]
    requires r == NewRefresh(s.db, t.user, t.version, 3) && t.exp + 1 < r.exp
    ensures Outlived(RunFrom(Forgetful, s, logout), RunFrom(Forgetful, s, logout + rest).db, t, r)
  {
    logout, rest := LogoutCanBeOutlived(s, 1, 2, t, 2);
  }

  lemma SurvivesAfter(cfg: Config, login: seq<Event>, t: Token, r: Token)
      returns (events: seq<Event>, later: seq<Event>)
    requires var s := Run(Forgetful, cfg, login);
             && Ready(s, 1, 2, t, 2) && s.db.rotated == [] && s.db.blacklist == map[]
             && r == NewRefresh(s.db, t.user, t.version, 3) && t.exp + 1 < r.exp
    ensures Survives(cfg, events, later, t, r)
  {
    var s := Run(Forgetful, cfg, login);
    var logout, rest := OutlivedFrom(s, t, r);
    events, later := login + logout, rest;
    RunExtends(Forgetful, cfg, login, logout);
    RunsOn(Forgetful, cfg, login, logout, rest);
  }

  /**
   A run in which a session survives its logout: after `events` a logout has been given the login's
   only refresh token, unexpired, and succeeded; in `later` a rotation that was already
   under way ends, and a refresh token of that login is live.
   */
  lemma SessionSurvivesLogout(cfg: Config, phone: string, username: string)
      returns (events: seq<Event>, later: seq<Event>, t: Token, r: Token)
    requires 2000 <= cfg.refreshMs
    ensures Survives(cfg, events, later, t, r)
  {
    var login := FirstEvents(phone, username, 1000);
    FirstLogin(cfg, phone, username, 1000);
    t, r := FirstRefresh(cfg), Token(Refresh, 0, 1, 3, ExpiryOf(1000, cfg.refreshMs));
    events, later := SurvivesAfter(cfg, login, t, r);
  }

  /** Call 3 logged `t` out in time and `t` is not rotated after, and yet `r` of the same login is live in `db`. */
  ghost predicate SiblingLives(out: State, db: Db, t: Token, r: Token) {
    && LoggedOutWith(out, 3, t) && out.db.now < t.exp && t !in db.rotated
    && LiveRefresh(db, r) && t in db.origin && db.origin[r].root == db.origin[t].root
  }

  lemma SiblingAfter(cfg: Config, login: seq<Event>, t0: Token, t: Token, r: Token)
      returns (events: seq<Event>, later: seq<Event>)
    requires var s := Run(Forgetful, cfg, login);
             && Ready(s, 1, 2, t0, 2) && PcOf(s, 3) == Idle && s.db.rotated == [] && s.db.blacklist == map[]
             && t == NewRefresh(s.db, t0.user, t0.version, 3) && r == NewRefresh(s.db, t0.user, t0.version, 5)
             && s.db.now < t.exp && t0.exp + 1 < r.exp && t != t0
    ensures SiblingLives(Run(Forgetful, cfg, events), Run(Forgetful, cfg, events + later).db, t, r)
  {
    var s := Run(Forgetful, cfg, login);
    var logout, rest := SiblingOutlivesLogout(s, 1, 2, 3, t0, 2);
    events, later := login + logout, rest;
    RunExtends(Forgetful, cfg, login, logout);
    RunsOn(Forgetful, cfg, login, logout, rest);
  }

  /**
   A run in which a session survives a logout although the token that was logged out is never
   rotated: a second rotation of the token before it was still under way.
   */
  lemma SiblingSurvivesLogout(cfg: Config, phone: string, username: string)
      returns (events: seq<Event>, later: seq<Event>, t: Token, r: Token)
    requires 2000 <= cfg.refreshMs
    ensures SiblingLives(Run(Forgetful, cfg, events), Run(Forgetful, cfg, events + later).db, t, r)
  {
    var login, expiry := FirstEvents(phone, username, 1000), ExpiryOf(1000, cfg.refreshMs);
    FirstLogin(cfg, phone, username, 1000);
    t, r := Token(Refresh, 0, 1, 3, expiry), Token(Refresh, 0, 1, 5, expiry);
    events, later := SiblingAfter(cfg, login, FirstRefresh(cfg), t, r);
  }

  /** The run of `LogoutMissedByAuthenticate` after a login that led to the stores `db`. */
  lemma AcceptedAfter(m: Memory, cfg: Config, login: seq<Event>, db: Db, t: Token)
    requires var s := Run(m, cfg, login);
             s.db == db && PcOf(s, 1) == Idle && PcOf(s, 2) == Idle && Parses(db, t, Access) && RowAdmits(db, t)
    ensures var logout, later := ParseThenLogout(db, 1, 2, t), LookupAfter(db, 1, t);
            var out := Run(m, cfg, login + logout);
            && LoggedOutWith(out, 2, t) && out.db.now < t.exp
            && Run(m, cfg, login + logout + later).db.accepted == db.accepted + if m == Forgetful then [t] else []
  {
    LogoutMissedByAuthenticate(m, Run(m, cfg, login), 1, 2, t);
    RunExtends(m, cfg, login, ParseThenLogout(db, 1, 2, t));
    RunsOn(m, cfg, login, ParseThenLogout(db, 1, 2, t), LookupAfter(db, 1, t));
  }

  lemma RunsOn(m: Memory, cfg: Config, login: seq<Event>, logout: seq<Event>, later: seq<Event>)
    ensures Run(m, cfg, login + logout + later) == RunFrom(m, Run(m, cfg, login), logout + later)
  {
    var rest := logout + later;
    assert login + logout + later == login + rest;
    RunExtends(m, cfg, login, rest);
  }

  /** A run in which `Authenticate` accepts an access token after its logout; a permanent blacklist refuses it. */
  lemma AcceptedAfterLogout(cfg: Config, phone: string, username: string)
      returns (events: seq<Event>, later: seq<Event>, t: Token)
    requires 1000 <= cfg.accessMs
    ensures var out := Run(Forgetful, cfg, events); LoggedOutWith(out, 2, t) && out.db.now < t.exp
    ensures Run(Forgetful, cfg, events + later).db.accepted == [t]
    ensures Run(Permanent, cfg, events + later).db.accepted == []
  {
    var login := FirstEvents(phone, username, 0);
    var db := RegisterCall(Start(cfg).db, 0, 0, username, phone, 0, 0, 1).(now := 0);
    t := FirstAccess(cfg);
    FirstStores(cfg, phone, username);
    FirstState(Forgetful, cfg, phone, username, 0);
    FirstState(Permanent, cfg, phone, username, 0);
    AcceptedAfter(Forgetful, cfg, login, db, t);
    AcceptedAfter(Permanent, cfg, login, db, t);
    events, later := login + ParseThenLogout(db, 1, 2, t), LookupAfter(db, 1, t);
  }
}
