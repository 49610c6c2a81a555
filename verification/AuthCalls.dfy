/**
 Whole service calls are undisturbed runs of the interleaving model: each lemma takes a call from
 idle to the program counter its success ends in, with the stores `AuthService` promises.
 */
module AuthCalls {
  import opened Options
  import opened AuthModel
  import opened AuthProofs
  import opened AuthService

  lemma ParseAndLookup(m: Memory, s: State, call: CallId, t: Token)
    requires PcOf(s, call) == Idle
    ensures var s' := RunFrom(m, s, [Do(call, AuthParse(t)), Do(call, AuthLookup)]);
            && s'.db == s.db
            && PcOf(s', call) == if Parses(s.db, t, Access) && !Blacklisted(m, s.db, t)
                                 then AuthCleared(t, t in s.db.blacklist) else Finished
  {
    RunTwo(m, s, Do(call, AuthParse(t)), Do(call, AuthLookup));
    var s1 := ActStep(m, s, call, AuthParse(t));
    var s2 := ActStep(m, s1, call, AuthLookup);
  }

  /** The machine accepts the token exactly when `Service.Authenticate` does. */
  lemma AuthenticateIsRun(m: Memory, s: State, call: CallId, t: Token)
    requires PcOf(s, call) == Idle
    ensures var accepts := && t in s.db.origin && t.kind == Access && s.db.now < t.exp
                           && !(t in s.db.blacklist && (m == Permanent || s.db.now <= s.db.blacklist[t]))
                           && t.user in s.db.users && s.db.users[t.user].active
                           && s.db.users[t.user].version == t.version;
            var s' := RunFrom(m, s, [Do(call, AuthParse(t)), Do(call, AuthLookup)] + [Do(call, AuthReadUser)]);
            && s'.db == s.db.(accepted := s.db.accepted + if accepts then [t] else [])
            && PcOf(s', call) == Finished
  {
    var start := [Do(call, AuthParse(t)), Do(call, AuthLookup)];
    ParseAndLookup(m, s, call, t);
    FromConcat(m, s, start, [Do(call, AuthReadUser)]);
    var s1 := RunFrom(m, s, start);
    RunOne(m, s1, Do(call, AuthReadUser));
    var s2 := ActStep(m, s1, call, AuthReadUser);
    assert s.db.accepted + [] == s.db.accepted;
  }

  /** The second half of every call that issues a pair. */
  lemma SignRuns(m: Memory, s: State, call: CallId, ja: Jti, jr: Jti)
    requires PcOf(s, call).Signing? && FreshPair(s.db, ja, jr)
    ensures var s' := Apply(m, s, Do(call, Sign(ja, jr)));
            s'.db == AndSign(s.db, call, PcOf(s, call), ja, jr) && PcOf(s', call) == Finished
  {
    var s' := ActStep(m, s, call, Sign(ja, jr));
  }

  lemma LoginIsRun(m: Memory, s: State, call: CallId, phone: string, ja: Jti, jr: Jti)
    requires PcOf(s, call) == Idle && FreshPair(s.db, ja, jr)
    requires HasPhone(s.db, phone) && s.db.users[s.db.phones[phone]].active
    ensures var s' := RunFrom(m, s, [Do(call, LoginRead(phone, true)), Do(call, Sign(ja, jr))]);
            && s'.db == AndSign(s.db, call, DoLoginRead(s.db, Idle, phone, true), ja, jr)
            && PcOf(s', call) == Finished
  {
    RunTwo(m, s, Do(call, LoginRead(phone, true)), Do(call, Sign(ja, jr)));
    var s1 := ActStep(m, s, call, LoginRead(phone, true));
    SignRuns(m, s1, call, ja, jr);
  }

  lemma LoginBySMSIsRun(m: Memory, s: State, call: CallId, phone: string, ja: Jti, jr: Jti)
    requires PcOf(s, call) == Idle && FreshPair(s.db, ja, jr)
    requires HasPhone(s.db, phone) && s.db.users[s.db.phones[phone]].active
    ensures var s' := RunFrom(m, s, [Do(call, SmsLoginRead(phone)), Do(call, Sign(ja, jr))]);
            && s'.db == AndSign(s.db, call, DoSmsLoginRead(s.db, Idle, phone), ja, jr)
            && PcOf(s', call) == Finished
  {
    RunTwo(m, s, Do(call, SmsLoginRead(phone)), Do(call, Sign(ja, jr)));
    var s1 := ActStep(m, s, call, SmsLoginRead(phone));
    SignRuns(m, s1, call, ja, jr);
  }

  lemma RegisterIsRun(m: Memory, s: State, call: CallId, id: UserId, username: string, phone: string, hash: Hash,
                      ja: Jti, jr: Jti)
    requires PcOf(s, call) == Idle && FreshPair(s.db, ja, jr)
    requires id !in s.db.users && phone !in s.db.phones && username !in s.db.names
    ensures var s' := RunFrom(m, s, [Do(call, RegisterCreate(id, username, phone, hash)), Do(call, Sign(ja, jr))]);
            && s'.db == RegisterCall(s.db, call, id, username, phone, hash, ja, jr)
            && PcOf(s', call) == Finished
  {
    RunTwo(m, s, Do(call, RegisterCreate(id, username, phone, hash)), Do(call, Sign(ja, jr)));
    var s1 := ActStep(m, s, call, RegisterCreate(id, username, phone, hash));
    SignRuns(m, s1, call, ja, jr);
  }

  // ----- rotation -----

  lemma RefreshStarts(m: Memory, s: State, call: CallId, t: Token)
    requires PcOf(s, call) == Idle
    ensures var s' := RunFrom(m, s, [Do(call, RefreshParse(t)), Do(call, RefreshReadUser)]);
            && s'.db == s.db && PcOf(s', call) == DoRefreshRead(s.db, DoRefreshParse(s.db, Idle, t))
            && (forall other | other != call :: PcOf(s', other) == PcOf(s, other))
  {
    RunTwo(m, s, Do(call, RefreshParse(t)), Do(call, RefreshReadUser));
    var s1 := ActStep(m, s, call, RefreshParse(t));
    var s2 := ActStep(m, s1, call, RefreshReadUser);
  }

  lemma ConsumeRuns(s: State, call: CallId, up: bool)
    ensures Apply(Forgetful, s, Do(call, Consume(up))).db == DoConsume(Forgetful, s.db, call, PcOf(s, call), up).0
    ensures PcOf(s, call).Consuming? || PcOf(s, call) == Finished ==>
              PcOf(Apply(Forgetful, s, Do(call, Consume(up))), call) == Finished
  {
    var s' := ActStep(Forgetful, s, call, Consume(up));
  }

  lemma RefreshEnds(s: State, call: CallId, ja: Jti, jr: Jti, up: bool)
    requires FreshPair(s.db, ja, jr) && (PcOf(s, call).RefreshAllowed? || PcOf(s, call) == Finished)
    ensures var (db, pc) := DoRefreshSign(s.db, call, PcOf(s, call), ja, jr);
            var s' := RunFrom(Forgetful, s, [Do(call, RefreshSign(ja, jr)), Do(call, Consume(up))]);
            s'.db == DoConsume(Forgetful, db, call, pc, up).0 && PcOf(s', call) == Finished
  {
    RunTwo(Forgetful, s, Do(call, RefreshSign(ja, jr)), Do(call, Consume(up)));
    var s1 := ActStep(Forgetful, s, call, RefreshSign(ja, jr));
    ConsumeRuns(s1, call, up);
  }

  lemma RefreshIsRun(s: State, call: CallId, t: Token, ja: Jti, jr: Jti, up: bool)
    requires PcOf(s, call) == Idle && FreshPair(s.db, ja, jr)
    ensures var start, end := [Do(call, RefreshParse(t)), Do(call, RefreshReadUser)],
                              [Do(call, RefreshSign(ja, jr)), Do(call, Consume(up))];
            var s' := RunFrom(Forgetful, s, start + end);
            s'.db == RefreshCall(s.db, call, t, ja, jr, up) && PcOf(s', call) == Finished
  {
    var start, end := [Do(call, RefreshParse(t)), Do(call, RefreshReadUser)],
                      [Do(call, RefreshSign(ja, jr)), Do(call, Consume(up))];
    RefreshStarts(Forgetful, s, call, t);
    RefreshEnds(RunFrom(Forgetful, s, start), call, ja, jr, up);
    FromConcat(Forgetful, s, start, end);
  }

  // ----- logout -----

  function TokenIn(cred: Credential): Option<Token> {
    if cred.Signed? then Some(cred.token) else None
  }

  /** The two tokens in the order in which `Logout` revokes them. */
  function Both(access: Credential, refresh: Credential): seq<Presented> {
    [Presented(Refresh, TokenIn(refresh)), Presented(Access, TokenIn(access))]
  }

  function RevokeSteps(db: Db, call: CallId, cred: Credential, kind: Kind): seq<Event> {
    if cred.Signed? && Parses(db, cred.token, kind) then [Do(call, LogoutParse), Do(call, LogoutWrite(true))]
    else [Do(call, LogoutParse)]
  }

  lemma RevokeRuns(m: Memory, s: State, call: CallId, all: seq<Presented>, at: nat, cred: Credential, kind: Kind)
    requires PcOf(s, call) == LoggingOut(all, at) && at < |all| && all[at] == Presented(kind, TokenIn(cred))
    ensures var s' := RunFrom(m, s, RevokeSteps(s.db, call, cred, kind));
            && s'.db == RevokeCall(s.db, cred, kind) && PcOf(s', call) == NextLogout(all, at + 1)
            && (forall other | other != call :: PcOf(s', other) == PcOf(s, other))
  {
    if cred.Signed? && Parses(s.db, cred.token, kind) {
      RevokeWrites(m, s, call, all, at, cred.token);
    } else {
      RunOne(m, s, Do(call, LogoutParse));
      var s1 := ActStep(m, s, call, LogoutParse);
    }
  }

  lemma RevokeWrites(m: Memory, s: State, call: CallId, all: seq<Presented>, at: nat, t: Token)
    requires PcOf(s, call) == LoggingOut(all, at) && at < |all| && all[at].token == Some(t)
    requires Parses(s.db, t, all[at].kind)
    ensures var s' := RunFrom(m, s, [Do(call, LogoutParse), Do(call, LogoutWrite(true))]);
            && s'.db == Revoke(s.db, t, t.exp - s.db.now) && PcOf(s', call) == NextLogout(all, at + 1)
            && (forall other | other != call :: PcOf(s', other) == PcOf(s, other))
  {
    RunTwo(m, s, Do(call, LogoutParse), Do(call, LogoutWrite(true)));
    var s1 := ActStep(m, s, call, LogoutParse);
    var s2 := ActStep(m, s1, call, LogoutWrite(true));
  }

  function LogoutSteps(db: Db, call: CallId, access: Credential, refresh: Credential): seq<Event> {
    [Do(call, LogoutStart(TokenIn(refresh), TokenIn(access)))]
    + RevokeSteps(db, call, refresh, Refresh)
    + RevokeSteps(RevokeCall(db, refresh, Refresh), call, access, Access)
  }

  lemma LogoutStarts(m: Memory, s: State, call: CallId, access: Credential, refresh: Credential)
    requires PcOf(s, call) == Idle
    requires (access.Signed? ==> access.token in s.db.origin) && (refresh.Signed? ==> refresh.token in s.db.origin)
    ensures var s' := RunFrom(m, s, [Do(call, LogoutStart(TokenIn(refresh), TokenIn(access)))]);
            && s'.db == s.db && PcOf(s', call) == LoggingOut(Both(access, refresh), 0)
            && (forall other | other != call :: PcOf(s', other) == PcOf(s, other))
  {
    var e := Do(call, LogoutStart(TokenIn(refresh), TokenIn(access)));
    RunOne(m, s, e);
    var s' := ActStep(m, s, call, LogoutStart(TokenIn(refresh), TokenIn(access)));
  }

  /** A logout ends in `LoggedOut` with the tokens it was given, and both revocations written. */
  lemma LogoutIsRun(m: Memory, s: State, call: CallId, access: Credential, refresh: Credential)
    requires PcOf(s, call) == Idle
    requires (access.Signed? ==> access.token in s.db.origin) && (refresh.Signed? ==> refresh.token in s.db.origin)
    ensures var s' := RunFrom(m, s, LogoutSteps(s.db, call, access, refresh));
            && s'.db == RevokeCall(RevokeCall(s.db, refresh, Refresh), access, Access)
            && PcOf(s', call) == LoggedOut(Both(access, refresh))
            && (forall other | other != call :: PcOf(s', other) == PcOf(s, other))
  {
    var all := Both(access, refresh);
    var start := [Do(call, LogoutStart(TokenIn(refresh), TokenIn(access)))];
    var first := RevokeSteps(s.db, call, refresh, Refresh);
    var second := RevokeSteps(RevokeCall(s.db, refresh, Refresh), call, access, Access);
    LogoutStarts(m, s, call, access, refresh);
    var s1 := RunFrom(m, s, start);
    RevokeRuns(m, s1, call, all, 0, refresh, Refresh);
    var s2 := RunFrom(m, s1, first);
    RevokeRuns(m, s2, call, all, 1, access, Access);
    FromConcat(m, s, start, first);
    FromConcat(m, s, start + first, second);
  }

  // ----- password reset -----

  lemma VerifyResetCodeIsRun(m: Memory, s: State, call: CallId, phone: string, id: ResetId, up: bool)
    requires PcOf(s, call) == Idle && id !in s.db.resets
    ensures var s' := RunFrom(m, s, [Do(call, ResetVerify(phone)), Do(call, ResetStore(id, up))]);
            && s'.db == DoResetStore(s.db, DoResetVerify(s.db, Idle, phone), id, up).0
            && PcOf(s', call) == Finished
  {
    RunTwo(m, s, Do(call, ResetVerify(phone)), Do(call, ResetStore(id, up)));
    var s1 := ActStep(m, s, call, ResetVerify(phone));
    var s2 := ActStep(m, s1, call, ResetStore(id, up));
  }

  /** The stores after a reset whose record and row were found. */
  function ResetCall(db: Db, id: ResetId, hash: Hash, swapUp: bool, cleanUp: bool): Db
    requires id in db.resets
  {
    if swapUp && SwapMatches(db, db.resets[id].user, db.resets[id].version) then
      var swapped := Swap(db, db.resets[id].user, hash);
      if cleanUp then DropReset(swapped, id) else swapped
    else db
  }

  lemma ResetStarts(m: Memory, s: State, call: CallId, id: ResetId)
    requires PcOf(s, call) == Idle && id in s.db.resets && s.db.now <= s.db.resets[id].deadline
    requires s.db.resets[id].user in s.db.users
    ensures var s' := RunFrom(m, s, [Do(call, ResetLoad(id)), Do(call, ResetReadUser)]);
            s'.db == s.db && PcOf(s', call) == ResetReady(id, s.db.resets[id].user, s.db.resets[id].version)
  {
    RunTwo(m, s, Do(call, ResetLoad(id)), Do(call, ResetReadUser));
    var s1 := ActStep(m, s, call, ResetLoad(id));
    var s2 := ActStep(m, s1, call, ResetReadUser);
  }

  lemma ResetEnds(m: Memory, s: State, call: CallId, id: ResetId, hash: Hash, swapUp: bool, cleanUp: bool)
    requires id in s.db.resets && PcOf(s, call) == ResetReady(id, s.db.resets[id].user, s.db.resets[id].version)
    ensures var s' := RunFrom(m, s, [Do(call, ResetSwap(hash, swapUp)), Do(call, ResetClean(cleanUp))]);
            s'.db == ResetCall(s.db, id, hash, swapUp, cleanUp) && PcOf(s', call) == Finished
  {
    RunTwo(m, s, Do(call, ResetSwap(hash, swapUp)), Do(call, ResetClean(cleanUp)));
    var s1 := ActStep(m, s, call, ResetSwap(hash, swapUp));
    var s2 := ActStep(m, s1, call, ResetClean(cleanUp));
  }

  lemma ResetPasswordIsRun(m: Memory, s: State, call: CallId, id: ResetId, hash: Hash, swapUp: bool, cleanUp: bool)
    requires PcOf(s, call) == Idle && id in s.db.resets && s.db.now <= s.db.resets[id].deadline
    requires s.db.resets[id].user in s.db.users
    ensures var start, end := [Do(call, ResetLoad(id)), Do(call, ResetReadUser)],
                              [Do(call, ResetSwap(hash, swapUp)), Do(call, ResetClean(cleanUp))];
            var s' := RunFrom(m, s, start + end);
            s'.db == ResetCall(s.db, id, hash, swapUp, cleanUp) && PcOf(s', call) == Finished
  {
    var start, end := [Do(call, ResetLoad(id)), Do(call, ResetReadUser)],
                      [Do(call, ResetSwap(hash, swapUp)), Do(call, ResetClean(cleanUp))];
    ResetStarts(m, s, call, id);
    ResetEnds(m, RunFrom(m, s, start), call, id, hash, swapUp, cleanUp);
    FromConcat(m, s, start, end);
  }
}
