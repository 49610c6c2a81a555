/**
 Token lifecycle: users with a token version, a blacklist whose entries expire, password resets,
 and any number of service calls whose reads and writes interleave.

 A call is a program counter; each action below is one read or one write of the user table,
 the blacklist or the reset store. An action that is not possible leaves everything as it is,
 so a run is any sequence of events.
 */
module AuthModel {
  import opened Options

  type UserId = nat
  type CallId = nat
  type Jti = nat
  type ResetId = nat
  type Hash = nat

  const RESET_TTL_MS := 10 * 60 * 1000

  datatype Kind = Access | Refresh

  datatype Token = Token(kind: Kind, user: UserId, version: nat, jti: Jti, exp: int)

  datatype User = User(hash: Hash, version: nat, active: bool)

  datatype ResetRecord = ResetRecord(user: UserId, version: nat, deadline: int)

  /** The login call a token descends from, and the password hash that login compared or stored. */
  datatype Origin = Origin(root: CallId, hash: Option<Hash>)

  datatype Config = Config(accessMs: nat, refreshMs: nat)

  /**
   The shared stores (`phones` and `names` are the unique indexes of the user table), and history
   beside them: `origin` lists the tokens handed out, `jtis` the ids used and by which call,
   `issuers` the calls that handed out a pair, `hashes` the hash stored under each (user, version),
   `rotated` the refresh tokens spent by a rotation, `swaps` the successful resets, `respent`
   whether some rotation spent a token whose blacklist entry had been forgotten, and `accepted`
   the tokens `Authenticate` let through. An expired blacklist entry stays in the map; only
   lookups heed its deadline.
   */
  datatype Db = Db(
    cfg: Config,
    now: int,
    users: map<UserId, User>,
    phones: map<string, UserId>,
    names: set<string>,
    blacklist: map<Token, int>,
    resets: map<ResetId, ResetRecord>,
    origin: map<Token, Origin>,
    jtis: map<Jti, CallId>,
    issuers: set<CallId>,
    hashes: map<(UserId, nat), Hash>,
    rotated: seq<Token>,
    swaps: seq<(UserId, nat)>,
    respent: bool,
    accepted: seq<Token>)

  /** A token handed to `Logout` under a kind; None stands for a missing or forged one. */
  datatype Presented = Presented(kind: Kind, token: Option<Token>)

  datatype Pc =
    | Idle
    | AuthParsed(token: Token)
    | AuthCleared(token: Token, listed: bool)
    | Signing(user: UserId, version: nat, hash: Option<Hash>)
    | RefreshParsed(token: Token)
    | RefreshAllowed(token: Token)
    | Consuming(token: Token, ttl: int, access: Token, refresh: Token)
    | LoggingOut(all: seq<Presented>, at: nat)
    | Revoking(all: seq<Presented>, at: nat, ttl: int)
    | LoggedOut(all: seq<Presented>)
    | ResetVerified(user: UserId, version: nat)
    | ResetLoaded(id: ResetId, user: UserId, version: nat)
    | ResetReady(id: ResetId, user: UserId, version: nat)
    | ResetDone(id: ResetId)
    | Finished

  datatype State = State(db: Db, calls: map<CallId, Pc>)

  /** `up` is whether the store answered the write; `passwordOk` whether the hash comparison succeeded. */
  datatype Action =
    | AuthParse(token: Token)
    | AuthLookup
    | AuthReadUser
    | LoginRead(phone: string, passwordOk: bool)
    | SmsLoginRead(phone: string)
    | RegisterCreate(user: UserId, username: string, phone: string, hash: Hash)
    | Sign(jtiAccess: Jti, jtiRefresh: Jti)
    | RefreshParse(token: Token)
    | RefreshReadUser
    | RefreshSign(jtiAccess: Jti, jtiRefresh: Jti)
    | Consume(up: bool)
    | LogoutStart(refresh: Option<Token>, access: Option<Token>)
    | LogoutParse
    | LogoutWrite(up: bool)
    | ResetVerify(phone: string)
    | ResetStore(id: ResetId, up: bool)
    | ResetLoad(id: ResetId)
    | ResetReadUser
    | ResetSwap(hash: Hash, up: bool)
    | ResetClean(up: bool)

  datatype Event =
    | Tick(ms: nat)
    | SetActive(user: UserId, active: bool)
    | Do(call: CallId, action: Action)

  /** Whether blacklist entries are forgotten at their deadline, as Redis does, or never. */
  datatype Memory = Forgetful | Permanent

  /** Only tokens that were handed out can be presented: signatures are not forged and unreturned tokens stay inside. */
  predicate Parses(db: Db, t: Token, kind: Kind) {
    t in db.origin && t.kind == kind && db.now < t.exp
  }

  predicate Blacklisted(m: Memory, db: Db, t: Token) {
    t in db.blacklist && (m == Permanent || db.now <= db.blacklist[t])
  }

  /** The user row lets a token through: it exists, is enabled and has the token's version. */
  predicate RowAdmits(db: Db, t: Token) {
    t.user in db.users && db.users[t.user].active && db.users[t.user].version == t.version
  }

  predicate HasPhone(db: Db, phone: string) {
    phone in db.phones && db.phones[phone] in db.users
  }

  /** Expiry as a JWT numeric date: whole seconds, rounded down. */
  function ExpiryOf(now: int, ttl: nat): int {
    (now + ttl) / 1000 * 1000
  }

  function NewAccess(db: Db, user: UserId, version: nat, jti: Jti): Token {
    Token(Access, user, version, jti, ExpiryOf(db.now, db.cfg.accessMs))
  }

  function NewRefresh(db: Db, user: UserId, version: nat, jti: Jti): Token {
    Token(Refresh, user, version, jti, ExpiryOf(db.now, db.cfg.refreshMs))
  }

  predicate FreshPair(db: Db, a: Jti, r: Jti) {
    a != r && a !in db.jtis && r !in db.jtis
  }

  function ClaimPair(db: Db, call: CallId, a: Jti, r: Jti): Db {
    db.(jtis := db.jtis[a := call][r := call])
  }

  /** Hand a pair to the caller. */
  function HandOut(db: Db, call: CallId, access: Token, refresh: Token, origin: Origin): Db {
    db.(origin := db.origin[access := origin][refresh := origin], issuers := db.issuers + {call})
  }

  /** The set-if-absent that spends a refresh token, with what a success hands out. */
  function Spend(db: Db, call: CallId, pc: Pc): Db
    requires pc.Consuming? && pc.token in db.origin
  {
    HandOut(db, call, pc.access, pc.refresh, db.origin[pc.token])
    .(blacklist := db.blacklist[pc.token := db.now + pc.ttl],
      rotated := db.rotated + [pc.token],
      respent := db.respent || pc.token in db.blacklist)
  }

  /** Forged tokens never parse, so presenting one is presenting none. */
  function Genuine(db: Db, t: Option<Token>): Option<Token> {
    if t.Some? && t.value in db.origin then t else None
  }

  function NextLogout(all: seq<Presented>, at: nat): Pc {
    if at < |all| then LoggingOut(all, at) else LoggedOut(all)
  }

  /** The compare-and-swap on the token version. */
  predicate SwapMatches(db: Db, user: UserId, version: nat) {
    user in db.users && db.users[user].version == version
  }

  function Swap(db: Db, user: UserId, hash: Hash): Db
    requires user in db.users
  {
    var row := db.users[user];
    db.(users := db.users[user := User(hash, row.version + 1, row.active)],
        hashes := db.hashes[(user, row.version + 1) := hash],
        swaps := db.swaps + [(user, row.version)])
  }

  // ----- one function per action: the new stores and the call's new program counter -----

  function DoAuthParse(db: Db, pc: Pc, t: Token): Pc {
    if !pc.Idle? then pc else if Parses(db, t, Access) then AuthParsed(t) else Finished
  }

  /** `listed` keeps, as history, whether a permanent blacklist would have refused the token here. */
  function DoAuthLookup(m: Memory, db: Db, pc: Pc): Pc {
    if !pc.AuthParsed? then pc
    else if Blacklisted(m, db, pc.token) then Finished
    else AuthCleared(pc.token, pc.token in db.blacklist)
  }

  function DoAuthRead(db: Db, pc: Pc): (Db, Pc) {
    if !pc.AuthCleared? then (db, pc)
    else (if RowAdmits(db, pc.token) then db.(accepted := db.accepted + [pc.token]) else db, Finished)
  }

  function DoLoginRead(db: Db, pc: Pc, phone: string, passwordOk: bool): Pc {
    if !pc.Idle? then pc
    else if HasPhone(db, phone) && passwordOk && db.users[db.phones[phone]].active then
      var row := db.users[db.phones[phone]];
      Signing(db.phones[phone], row.version, Some(row.hash))
    else Finished
  }

  function DoSmsLoginRead(db: Db, pc: Pc, phone: string): Pc {
    if !pc.Idle? then pc
    else if HasPhone(db, phone) && db.users[db.phones[phone]].active then
      Signing(db.phones[phone], db.users[db.phones[phone]].version, None)
    else Finished
  }

  function Create(db: Db, user: UserId, username: string, phone: string, hash: Hash): Db {
    db.(users := db.users[user := User(hash, 1, true)], phones := db.phones[phone := user],
        names := db.names + {username}, hashes := db.hashes[(user, 1) := hash])
  }

  function DoCreate(db: Db, pc: Pc, user: UserId, username: string, phone: string, hash: Hash): (Db, Pc) {
    if !pc.Idle? then (db, pc)
    else if user in db.users || phone in db.phones || username in db.names then (db, Finished)
    else (Create(db, user, username, phone, hash), Signing(user, 1, Some(hash)))
  }

  function DoSign(db: Db, call: CallId, pc: Pc, ja: Jti, jr: Jti): (Db, Pc) {
    if !pc.Signing? || !FreshPair(db, ja, jr) then (db, pc)
    else
      (HandOut(ClaimPair(db, call, ja, jr), call, NewAccess(db, pc.user, pc.version, ja),
               NewRefresh(db, pc.user, pc.version, jr), Origin(call, pc.hash)), Finished)
  }

  function DoRefreshParse(db: Db, pc: Pc, t: Token): Pc {
    if !pc.Idle? then pc else if Parses(db, t, Refresh) then RefreshParsed(t) else Finished
  }

  function DoRefreshRead(db: Db, pc: Pc): Pc {
    if !pc.RefreshParsed? then pc else if RowAdmits(db, pc.token) then RefreshAllowed(pc.token) else Finished
  }

  function DoRefreshSign(db: Db, call: CallId, pc: Pc, ja: Jti, jr: Jti): (Db, Pc) {
    if !pc.RefreshAllowed? then (db, pc)
    else if pc.token.exp <= db.now then (db, Finished)
    else if !FreshPair(db, ja, jr) then (db, pc)
    else
      var t := pc.token;
      (ClaimPair(db, call, ja, jr),
       Consuming(t, t.exp - db.now, NewAccess(db, t.user, t.version, ja), NewRefresh(db, t.user, t.version, jr)))
  }

  function DoConsume(m: Memory, db: Db, call: CallId, pc: Pc, up: bool): (Db, Pc) {
    if !pc.Consuming? then (db, pc)
    else if up && pc.token in db.origin && !Blacklisted(m, db, pc.token) then (Spend(db, call, pc), Finished)
    else (db, Finished)
  }

  function DoLogoutStart(db: Db, pc: Pc, refresh: Option<Token>, access: Option<Token>): Pc {
    if !pc.Idle? then pc
    else NextLogout([Presented(Refresh, Genuine(db, refresh)), Presented(Access, Genuine(db, access))], 0)
  }

  function DoLogoutParse(db: Db, pc: Pc): Pc {
    if !pc.LoggingOut? || pc.at >= |pc.all| then pc
    else
      var p := pc.all[pc.at];
      if p.token.Some? && Parses(db, p.token.value, p.kind)
      then Revoking(pc.all, pc.at, p.token.value.exp - db.now) else NextLogout(pc.all, pc.at + 1)
  }

  function Revoke(db: Db, t: Token, ttl: int): Db {
    db.(blacklist := db.blacklist[t := db.now + ttl])
  }

  function DoLogoutWrite(db: Db, pc: Pc, up: bool): (Db, Pc) {
    if !pc.Revoking? then (db, pc)
    else if up && pc.at < |pc.all| && pc.all[pc.at].token.Some?
    then (Revoke(db, pc.all[pc.at].token.value, pc.ttl), NextLogout(pc.all, pc.at + 1))
    else (db, Finished)
  }

  function DoResetVerify(db: Db, pc: Pc, phone: string): Pc {
    if !pc.Idle? then pc
    else if HasPhone(db, phone) then ResetVerified(db.phones[phone], db.users[db.phones[phone]].version)
    else Finished
  }

  function PutReset(db: Db, id: ResetId, r: ResetRecord): Db {
    db.(resets := db.resets[id := r])
  }

  function DropReset(db: Db, id: ResetId): Db {
    db.(resets := db.resets - {id})
  }

  function DoResetStore(db: Db, pc: Pc, id: ResetId, up: bool): (Db, Pc) {
    if !pc.ResetVerified? || id in db.resets then (db, pc)
    else if !up then (db, Finished)
    else (PutReset(db, id, ResetRecord(pc.user, pc.version, db.now + RESET_TTL_MS)), Finished)
  }

  function DoResetLoad(db: Db, pc: Pc, id: ResetId): Pc {
    if !pc.Idle? then pc
    else if id in db.resets && db.now <= db.resets[id].deadline
    then ResetLoaded(id, db.resets[id].user, db.resets[id].version)
    else Finished
  }

  function DoResetRead(db: Db, pc: Pc): Pc {
    if !pc.ResetLoaded? then pc
    else if pc.user in db.users then ResetReady(pc.id, pc.user, pc.version) else Finished
  }

  function DoResetSwap(db: Db, pc: Pc, hash: Hash, up: bool): (Db, Pc) {
    if !pc.ResetReady? then (db, pc)
    else if up && SwapMatches(db, pc.user, pc.version) then (Swap(db, pc.user, hash), ResetDone(pc.id))
    else (db, Finished)
  }

  function DoResetClean(db: Db, pc: Pc, up: bool): (Db, Pc) {
    if !pc.ResetDone? then (db, pc) else (if up then DropReset(db, pc.id) else db, Finished)
  }

  function Act(m: Memory, db: Db, call: CallId, pc: Pc, a: Action): (Db, Pc) {
    match a
    case AuthParse(t) => (db, DoAuthParse(db, pc, t))
    case AuthLookup => (db, DoAuthLookup(m, db, pc))
    case AuthReadUser => DoAuthRead(db, pc)
    case LoginRead(phone, passwordOk) => (db, DoLoginRead(db, pc, phone, passwordOk))
    case SmsLoginRead(phone) => (db, DoSmsLoginRead(db, pc, phone))
    case RegisterCreate(user, username, phone, hash) => DoCreate(db, pc, user, username, phone, hash)
    case Sign(ja, jr) => DoSign(db, call, pc, ja, jr)
    case RefreshParse(t) => (db, DoRefreshParse(db, pc, t))
    case RefreshReadUser => (db, DoRefreshRead(db, pc))
    case RefreshSign(ja, jr) => DoRefreshSign(db, call, pc, ja, jr)
    case Consume(up) => DoConsume(m, db, call, pc, up)
    case LogoutStart(refresh, access) => (db, DoLogoutStart(db, pc, refresh, access))
    case LogoutParse => (db, DoLogoutParse(db, pc))
    case LogoutWrite(up) => DoLogoutWrite(db, pc, up)
    case ResetVerify(phone) => (db, DoResetVerify(db, pc, phone))
    case ResetStore(id, up) => DoResetStore(db, pc, id, up)
    case ResetLoad(id) => (db, DoResetLoad(db, pc, id))
    case ResetReadUser => (db, DoResetRead(db, pc))
    case ResetSwap(hash, up) => DoResetSwap(db, pc, hash, up)
    case ResetClean(up) => DoResetClean(db, pc, up)
  }

  function PcOf(s: State, call: CallId): Pc {
    if call in s.calls then s.calls[call] else Idle
  }

  function Apply(m: Memory, s: State, e: Event): State {
    match e
    case Tick(ms) => s.(db := s.db.(now := s.db.now + ms))
    case SetActive(user, active) =>
      if user in s.db.users
      then s.(db := s.db.(users := s.db.users[user := s.db.users[user].(active := active)])) else s
    case Do(call, a) =>
      var (db, pc) := Act(m, s.db, call, PcOf(s, call), a);
      State(db, s.calls[call := pc])
  }

  function Start(cfg: Config): State {
    State(Db(cfg, 0, map[], map[], {}, map[], map[], map[], map[], {}, map[], [], [], false, []), map[])
  }

  function Run(m: Memory, cfg: Config, events: seq<Event>): State {
    if events == [] then Start(cfg)
    else Apply(m, Run(m, cfg, events[..|events| - 1]), events[|events| - 1])
  }
}
