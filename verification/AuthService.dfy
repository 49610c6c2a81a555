/**
 The authentication service, its cache and its user table as objects. Methods are whole calls;
 `up` parameters say whether a store answered. The service keeps the stores of `AuthModel`
 beside its own as a ghost, and each method moves that ghost by the model's own steps, so
 the results about every interleaving speak about these calls.
 */
module AuthService {
  import opened Options
  import opened AuthModel

  /** An answer, or the business error code sent instead. */
  datatype Result<+T> = Ok(value: T) | Err(code: nat)

  /** What a client presents; only tokens this service handed out carry a valid signature. */
  datatype Credential = Missing | Forged | Signed(token: Token)

  datatype Pair = Pair(access: Token, refresh: Token)

  class UserTable {
    var users: map<UserId, User>
    var phones: map<string, UserId>
    var names: set<string>

    constructor ()
      ensures users == map[] && phones == map[] && names == {}
    {
      users, phones, names := map[], map[], {};
    }

    /** Duplicates are refused by the unique indexes; `id` is the next free key. */
    method Create(id: UserId, username: string, phone: string, hash: Hash, up: bool) returns (r: Result<()>)
      requires id !in users
      modifies this
      ensures r.Ok? <==> up && username !in old(names) && phone !in old(phones)
      ensures r.Ok? ==> users == old(users)[id := User(hash, 1, true)] && phones == old(phones)[phone := id]
                        && names == old(names) + {username}
      ensures r.Err? ==> unchanged(this) && r.code == if up then 409 else 500
    {
      if !up {
        return Err(500);
      }
      if username in names || phone in phones {
        return Err(409);
      }
      users, phones, names := users[id := User(hash, 1, true)], phones[phone := id], names + {username};
      return Ok(());
    }

    method GetByID(id: UserId, up: bool) returns (r: Result<Option<User>>)
      ensures r == if !up then Err(500) else Ok(if id in users then Some(users[id]) else None)
    {
      if !up {
        return Err(500);
      }
      return Ok(if id in users then Some(users[id]) else None);
    }

    method GetByPhone(phone: string, up: bool) returns (r: Result<Option<(UserId, User)>>)
      ensures r == if !up then Err(500)
                   else Ok(if phone in phones && phones[phone] in users
                           then Some((phones[phone], users[phones[phone]])) else None)
    {
      if !up {
        return Err(500);
      }
      return Ok(if phone in phones && phones[phone] in users
                then Some((phones[phone], users[phones[phone]])) else None);
    }

    /** Compare and swap: the row moves on only if it still has `version`; a read tells the refusals apart. */
    method UpdatePassword(id: UserId, hash: Hash, version: nat, up: bool, readUp: bool) returns (r: Result<()>)
      modifies this
      ensures r.Ok? <==> up && id in old(users) && old(users)[id].version == version
      ensures r.Ok? ==> users == old(users)[id := User(hash, version + 1, old(users)[id].active)]
      ensures r.Err? ==> users == old(users)
      ensures r.Err? ==> r.code == if !up || !readUp then 500 else if id in users then 400 else 404
      ensures phones == old(phones) && names == old(names)
    {
      if !up {
        return Err(500);
      }
      if id in users && users[id].version == version {
        users := users[id := User(hash, version + 1, users[id].active)];
        return Ok(());
      }
      if !readUp {
        return Err(500);
      }
      return if id in users then Err(400) else Err(404);
    }
  }

  class AuthCache {
    var blacklist: map<Token, int>
    var resets: map<ResetId, ResetRecord>

    constructor ()
      ensures blacklist == map[] && resets == map[]
    {
      blacklist, resets := map[], map[];
    }

    method AddTokenToBlacklist(now: int, t: Token, ttl: int, up: bool) returns (r: Result<()>)
      modifies this
      ensures r.Ok? <==> up
      ensures blacklist == if up then old(blacklist)[t := now + ttl] else old(blacklist)
      ensures resets == old(resets)
    {
      if !up {
        return Err(500);
      }
      blacklist := blacklist[t := now + ttl];
      return Ok(());
    }

    predicate Remembers(now: int, t: Token)
      reads this
    {
      t in blacklist && now <= blacklist[t]
    }

    method IsTokenInBlacklist(now: int, t: Token, up: bool) returns (r: Result<bool>)
      ensures r == if up then Ok(Remembers(now, t)) else Err(500)
    {
      return if up then Ok(Remembers(now, t)) else Err(500);
    }

    /** Set-if-absent: the first caller within the entry's life wins. */
    method ConsumeRefreshToken(now: int, cred: Credential, ttl: int, up: bool) returns (r: Result<bool>)
      modifies this
      ensures r.Ok? <==> cred.Signed? && 0 < ttl && up
      ensures r.Ok? ==> (r.value <==> !old(Remembers(now, cred.token)))
      ensures r == Ok(true) ==> blacklist == old(blacklist)[cred.token := now + ttl] && Remembers(now, cred.token)
      ensures r != Ok(true) ==> blacklist == old(blacklist)
      ensures resets == old(resets)
    {
      if !cred.Signed? || ttl <= 0 || !up {
        return Err(500);
      }
      if Remembers(now, cred.token) {
        return Ok(false);
      }
      blacklist := blacklist[cred.token := now + ttl];
      return Ok(true);
    }

    method SetResetToken(now: int, id: ResetId, user: UserId, version: nat, ttl: int, up: bool) returns (r: Result<()>)
      modifies this
      ensures r.Ok? <==> up
      ensures resets == if up then old(resets)[id := ResetRecord(user, version, now + ttl)] else old(resets)
      ensures blacklist == old(blacklist)
    {
      if !up {
        return Err(500);
      }
      resets := resets[id := ResetRecord(user, version, now + ttl)];
      return Ok(());
    }

    method GetResetToken(now: int, id: ResetId, up: bool) returns (r: Result<Option<ResetRecord>>)
      ensures r == if !up then Err(500)
                   else Ok(if id in resets && now <= resets[id].deadline then Some(resets[id]) else None)
    {
      if !up {
        return Err(500);
      }
      return Ok(if id in resets && now <= resets[id].deadline then Some(resets[id]) else None);
    }

    method DelResetToken(id: ResetId, up: bool)
      modifies this
      ensures resets == if up then old(resets) - {id} else old(resets)
      ensures blacklist == old(blacklist)
    {
      if up {
        resets := resets - {id};
      }
    }
  }

  // ----- whole calls as sequences of the model's steps -----

  function AndSign(db: Db, call: CallId, pc: Pc, ja: Jti, jr: Jti): Db {
    DoSign(db, call, pc, ja, jr).0
  }

  function RefreshCall(db: Db, call: CallId, t: Token, ja: Jti, jr: Jti, up: bool): Db {
    var (db', pc) := DoRefreshSign(db, call, DoRefreshRead(db, DoRefreshParse(db, Idle, t)), ja, jr);
    DoConsume(Forgetful, db', call, pc, up).0
  }

  function RegisterCall(db: Db, call: CallId, id: UserId, username: string, phone: string, hash: Hash,
                        ja: Jti, jr: Jti): Db
  {
    var (created, pc) := DoCreate(db, Idle, id, username, phone, hash);
    AndSign(created, call, pc, ja, jr)
  }

  /** A registration's tokens descend from it and carry the hash that was stored. */
  lemma RegisterGrants(db: Db, call: CallId, id: UserId, username: string, phone: string, hash: Hash, ja: Jti, jr: Jti)
    requires FreshPair(db, ja, jr) && id !in db.users && phone !in db.phones && username !in db.names
    ensures var db' := RegisterCall(db, call, id, username, phone, hash, ja, jr);
            var access, refresh := NewAccess(db, id, 1, ja), NewRefresh(db, id, 1, jr);
            && HasPhone(db', phone) && db'.phones[phone] == id && db'.users[id] == User(hash, 1, true)
            && RowAdmits(db', access) && RowAdmits(db', refresh)
            && access in db'.origin && db'.origin[access] == Origin(call, Some(hash))
            && refresh in db'.origin && db'.origin[refresh] == Origin(call, Some(hash))
  {
  }

  /** The refresh token presented is one the service would rotate now. */
  predicate Rotatable(db: Db, t: Token) {
    Parses(db, t, Refresh) && RowAdmits(db, t) && !Blacklisted(Forgetful, db, t)
  }

  function RevokeCall(db: Db, cred: Credential, kind: Kind): Db {
    if cred.Signed? && Parses(db, cred.token, kind) then Revoke(db, cred.token, cred.token.exp - db.now) else db
  }

  /** Exactly a rotatable token is spent; the pair handed out inherits its origin, and it cannot be spent again. */
  lemma RefreshSpends(db: Db, call: CallId, t: Token, ja: Jti, jr: Jti)
    requires FreshPair(db, ja, jr) && Rotatable(db, t)
    ensures var db' := RefreshCall(db, call, t, ja, jr, true);
            var access, refresh := NewAccess(db, t.user, t.version, ja), NewRefresh(db, t.user, t.version, jr);
            && db'.rotated == db.rotated + [t] && db'.users == db.users
            && (t !in db.blacklist ==> db'.respent == db.respent)
            && access in db'.origin && db'.origin[access] == db.origin[t]
            && refresh in db'.origin && db'.origin[refresh] == db.origin[t]
            && Blacklisted(Forgetful, db', t) && !Rotatable(db', t)
  {
    var pc := Consuming(t, t.exp - db.now, NewAccess(db, t.user, t.version, ja), NewRefresh(db, t.user, t.version, jr));
    assert DoRefreshSign(db, call, RefreshAllowed(t), ja, jr) == (ClaimPair(db, call, ja, jr), pc);
    assert RefreshCall(db, call, t, ja, jr, true) == Spend(ClaimPair(db, call, ja, jr), call, pc);
  }

  lemma RefreshRefuses(db: Db, call: CallId, t: Token, ja: Jti, jr: Jti, up: bool)
    requires !up || !Rotatable(db, t)
    ensures var db' := RefreshCall(db, call, t, ja, jr, up);
            db' == db || (FreshPair(db, ja, jr) && db' == ClaimPair(db, call, ja, jr))
  {
  }

  /** A pair for this user and version with these ids: each kind with its own life, in whole seconds, rounded down. */
  predicate PairFor(p: Pair, user: UserId, version: nat, ja: Jti, jr: Jti, now: int, cfg: Config) {
    && p.access.kind == Access && p.refresh.kind == Refresh && p.access.jti == ja && p.refresh.jti == jr
    && p.access.user == p.refresh.user == user && p.access.version == p.refresh.version == version
    && p.access.exp % 1000 == 0 && now + cfg.accessMs - 1000 < p.access.exp <= now + cfg.accessMs
    && p.refresh.exp % 1000 == 0 && now + cfg.refreshMs - 1000 < p.refresh.exp <= now + cfg.refreshMs
  }

  class Service {
    const cfg: Config
    const table: UserTable
    const cache: AuthCache
    var now: int
    ghost var db: Db

    ghost predicate Valid()
      reads this, table, cache
    {
      && db.cfg == cfg && db.now == now
      && db.users == table.users && db.phones == table.phones && db.names == table.names
      && db.blacklist == cache.blacklist && db.resets == cache.resets
    }

    /** Signatures are not forged. */
    ghost predicate Genuine(cred: Credential)
      reads this
    {
      cred.Signed? ==> cred.token in db.origin
    }

    constructor (cfg: Config, table: UserTable, cache: AuthCache)
      requires table.users == map[] && table.phones == map[] && table.names == {}
      requires cache.blacklist == map[] && cache.resets == map[]
      ensures Valid() && db == Start(cfg).db
    {
      this.cfg, this.table, this.cache, now := cfg, table, cache, 0;
      db := Start(cfg).db;
    }

    method Authenticate(cred: Credential, cacheUp: bool, tableUp: bool) returns (r: Result<UserId>)
      requires Valid() && Genuine(cred)
      ensures r.Ok? <==> && cred.Signed? && cred.token.kind == Access && now < cred.token.exp
                         && cacheUp && !(cred.token in cache.blacklist && now <= cache.blacklist[cred.token])
                         && tableUp && cred.token.user in table.users && table.users[cred.token.user].active
                         && table.users[cred.token.user].version == cred.token.version
      ensures r.Ok? ==> r.value == cred.token.user
      ensures r.Err? ==> r.code == 401 || r.code == 500
      ensures r == Err(500) ==> !cacheUp || !tableUp
    {
      if !cred.Signed? || cred.token.kind != Access || cred.token.exp <= now {
        return Err(401);
      }
      var black := cache.IsTokenInBlacklist(now, cred.token, cacheUp);
      if black.Err? {
        return Err(500);
      }
      if black.value {
        return Err(401);
      }
      var user := table.GetByID(cred.token.user, tableUp);
      if user.Err? {
        return Err(500);
      }
      if user.value.None? || !user.value.value.active || user.value.value.version != cred.token.version {
        return Err(401);
      }
      return Ok(cred.token.user);
    }

    /** Sign and hand out a pair; `ja` and `jr` are new ids. */
    method Issue(call: CallId, user: UserId, version: nat, ja: Jti, jr: Jti, ghost hash: Option<Hash>) returns (p: Pair)
      requires Valid() && FreshPair(db, ja, jr)
      modifies this
      ensures Valid() && now == old(now)
      ensures db == AndSign(old(db), call, Signing(user, version, hash), ja, jr)
      ensures p == Pair(NewAccess(old(db), user, version, ja), NewRefresh(old(db), user, version, jr))
      ensures PairFor(p, user, version, ja, jr, now, cfg)
    {
      p := Pair(Token(Access, user, version, ja, ExpiryOf(now, cfg.accessMs)),
                Token(Refresh, user, version, jr, ExpiryOf(now, cfg.refreshMs)));
      db := AndSign(db, call, Signing(user, version, hash), ja, jr);
    }

    /** `captcha` is the captcha service's verdict, `matches` the hash comparison. */
    method Login(call: CallId, captcha: Result<bool>, phone: string, matches: Hash -> bool, tableUp: bool,
                 ja: Jti, jr: Jti) returns (r: Result<Pair>)
      requires Valid() && FreshPair(db, ja, jr)
      modifies this
      ensures Valid()
      ensures r.Ok? <==> && captcha == Ok(true) && tableUp
                         && phone in table.phones && table.phones[phone] in table.users
                         && matches(table.users[table.phones[phone]].hash) && table.users[table.phones[phone]].active
      ensures r.Ok? ==>
                PairFor(r.value, table.phones[phone], table.users[table.phones[phone]].version, ja, jr, now, cfg)
      ensures now == old(now)
      ensures db == if r.Ok? then AndSign(old(db), call, DoLoginRead(old(db), Idle, phone, true), ja, jr) else old(db)
      ensures r.Ok? ==>
                var user := old(db).phones[phone];
                && r.value.access in db.origin && r.value.access.version == db.users[user].version
                && db.origin[r.value.access] == Origin(call, Some(db.users[user].hash))
                && r.value.refresh in db.origin && db.origin[r.value.refresh] == db.origin[r.value.access]
      ensures r.Err? ==> r.code in {400, 401, 403, 500, 503}
      ensures r == Err(403) <==> && captcha == Ok(true) && tableUp
                                 && phone in table.phones && table.phones[phone] in table.users
                                 && matches(table.users[table.phones[phone]].hash)
                                 && !table.users[table.phones[phone]].active
    {
      if captcha.Err? {
        return Err(503);
      }
      if !captcha.value {
        return Err(400);
      }
      var user := table.GetByPhone(phone, tableUp);
      if user.Err? {
        return Err(500);
      }
      if user.value.None? || !matches(user.value.value.1.hash) {
        return Err(401);
      }
      if !user.value.value.1.active {
        return Err(403);
      }
      var (id, row) := user.value.value;
      var p := Issue(call, id, row.version, ja, jr, Some(row.hash));
      return Ok(p);
    }

    /** `code` is the SMS service's verdict. */
    method LoginBySMS(call: CallId, code: Result<bool>, phone: string, tableUp: bool, ja: Jti, jr: Jti)
      returns (r: Result<Pair>)
      requires Valid() && FreshPair(db, ja, jr)
      modifies this
      ensures Valid()
      ensures r.Ok? <==> && code == Ok(true) && tableUp && phone in table.phones && table.phones[phone] in table.users
                         && table.users[table.phones[phone]].active
      ensures r.Ok? ==>
                PairFor(r.value, table.phones[phone], table.users[table.phones[phone]].version, ja, jr, now, cfg)
      ensures now == old(now)
      ensures code.Ok? ==>
                (r == Err(403) <==> && code.value && tableUp
                                    && phone in table.phones && table.phones[phone] in table.users
                                    && !table.users[table.phones[phone]].active)
      ensures db == if r.Ok? then AndSign(old(db), call, DoSmsLoginRead(old(db), Idle, phone), ja, jr) else old(db)
      ensures r.Ok? ==> && r.value.access in db.origin && db.origin[r.value.access] == Origin(call, None)
                        && r.value.refresh in db.origin && db.origin[r.value.refresh] == Origin(call, None)
    {
      if code.Err? {
        return Err(code.code);
      }
      if !code.value {
        return Err(400);
      }
      var user := table.GetByPhone(phone, tableUp);
      if user.Err? {
        return Err(500);
      }
      if user.value.None? {
        return Err(404);
      }
      if !user.value.value.1.active {
        return Err(403);
      }
      var (id, row) := user.value.value;
      var p := Issue(call, id, row.version, ja, jr, None);
      return Ok(p);
    }

    method MayRegister(username: string, phone: string, nameUp: bool, phoneUp: bool) returns (r: Result<()>)
      requires Valid()
      ensures r.Ok? <==> nameUp && phoneUp && username !in db.names && !HasPhone(db, phone)
      ensures r == Err(409) <==> nameUp && (username in db.names || (phoneUp && HasPhone(db, phone)))
    {
      if !nameUp {
        return Err(500);
      }
      if username in table.names {
        return Err(409);
      }
      var existing := table.GetByPhone(phone, phoneUp);
      if existing.Err? {
        return Err(500);
      }
      return if existing.value.Some? then Err(409) else Ok(());
    }

    /** All checks of a registration, and the new row. */
    method CreateUser(id: UserId, username: string, phone: string, nameUp: bool, phoneUp: bool, code: Result<bool>,
                      hash: Option<Hash>, createUp: bool) returns (r: Result<()>)
      requires Valid() && id !in db.users
      modifies this, table
      ensures Valid() && now == old(now)
      ensures r.Ok? <==> && nameUp && phoneUp && createUp && code == Ok(true) && hash.Some?
                         && username !in old(db).names && phone !in old(db).phones
      ensures db == if r.Ok? then AuthModel.Create(old(db), id, username, phone, hash.value) else old(db)
    {
      var free := MayRegister(username, phone, nameUp, phoneUp);
      if free.Err? {
        return Err(free.code);
      }
      if code.Err? {
        return Err(code.code);
      }
      if !code.value {
        return Err(400);
      }
      if hash.None? {
        return Err(500);
      }
      r := table.Create(id, username, phone, hash.value, createUp);
      if r.Ok? {
        db := AuthModel.Create(db, id, username, phone, hash.value);
      }
    }

    /**
     `code` is the SMS service's verdict, `hash` the hasher's answer, `id` the next free key. A failed
     signature leaves the user registered.
     */
    method Register(call: CallId, id: UserId, username: string, phone: string, nameUp: bool, phoneUp: bool,
                    code: Result<bool>, hash: Option<Hash>, createUp: bool, signUp: bool, ja: Jti, jr: Jti)
      returns (r: Result<Pair>, created: bool)
      requires Valid() && FreshPair(db, ja, jr) && id !in db.users
      modifies this, table
      ensures Valid()
      ensures created <==> && nameUp && phoneUp && createUp && code == Ok(true) && hash.Some?
                           && username !in old(db).names && phone !in old(db).phones
      ensures r.Ok? <==> created && signUp
      ensures r.Ok? ==> db == RegisterCall(old(db), call, id, username, phone, hash.value, ja, jr)
      ensures r.Ok? ==> && r.value.access == NewAccess(old(db), id, 1, ja)
                        && r.value.refresh == NewRefresh(old(db), id, 1, jr)
                        && PairFor(r.value, id, 1, ja, jr, now, cfg)
      ensures created ==> table.users == old(table.users)[id := User(hash.value, 1, true)]
      ensures created ==> table.phones == old(table.phones)[phone := id] && table.names == old(table.names) + {username}
      ensures created && !signUp ==> db == AuthModel.Create(old(db), id, username, phone, hash.value)
      ensures !created ==> db == old(db)
    {
      var made := CreateUser(id, username, phone, nameUp, phoneUp, code, hash, createUp);
      if made.Err? {
        return Err(made.code), false;
      }
      if !signUp {
        return Err(500), true;
      }
      var p := Issue(call, id, 1, ja, jr, hash);
      return Ok(p), true;
    }

    method RefreshToken(call: CallId, cred: Credential, tableUp: bool, cacheUp: bool, ja: Jti, jr: Jti)
      returns (r: Result<Pair>)
      requires Valid() && Genuine(cred) && FreshPair(db, ja, jr)
      modifies this, cache
      ensures Valid()
      ensures now == old(now)
      ensures r.Ok? <==> && cred.Signed? && cred.token.kind == Refresh && now < cred.token.exp
                         && tableUp && cred.token.user in table.users && table.users[cred.token.user].active
                         && table.users[cred.token.user].version == cred.token.version
                         && cacheUp && !(cred.token in old(cache.blacklist) && now <= old(cache.blacklist)[cred.token])
      ensures cache.blacklist == if r.Ok? then old(cache.blacklist)[cred.token := cred.token.exp]
                                 else old(cache.blacklist)
      ensures r.Ok? ==> PairFor(r.value, cred.token.user, cred.token.version, ja, jr, now, cfg)
      ensures r == Err(403) <==> && cred.Signed? && cred.token.kind == Refresh && now < cred.token.exp
                                 && tableUp && cred.token.user in table.users && !table.users[cred.token.user].active
                                 && table.users[cred.token.user].version == cred.token.version
      ensures db == if cred.Signed? && tableUp then RefreshCall(old(db), call, cred.token, ja, jr, cacheUp) else old(db)
      ensures r.Ok? ==> r.value == Pair(NewAccess(old(db), cred.token.user, cred.token.version, ja),
                                        NewRefresh(old(db), cred.token.user, cred.token.version, jr))
      ensures r == Err(409) <==> && cred.Signed? && cred.token.kind == Refresh && now < cred.token.exp
                                 && tableUp && cred.token.user in table.users && table.users[cred.token.user].active
                                 && table.users[cred.token.user].version == cred.token.version
                                 && cacheUp && cred.token in old(cache.blacklist)
                                 && now <= old(cache.blacklist)[cred.token]
    {
      if !cred.Signed? || cred.token.kind != Refresh || cred.token.exp <= now {
        return Err(401);
      }
      var t := cred.token;
      var user := table.GetByID(t.user, tableUp);
      if user.Err? {
        return Err(500);
      }
      if user.value.None? || user.value.value.version != t.version {
        return Err(401);
      }
      if !user.value.value.active {
        return Err(403);
      }
      var ttl := t.exp - now;
      var p := Pair(Token(Access, t.user, t.version, ja, ExpiryOf(now, cfg.accessMs)),
                    Token(Refresh, t.user, t.version, jr, ExpiryOf(now, cfg.refreshMs)));
      db := RefreshCall(db, call, t, ja, jr, cacheUp);
      var consumed := cache.ConsumeRefreshToken(now, cred, ttl, cacheUp);
      if consumed.Err? {
        return Err(500);
      }
      return if consumed.value then Ok(p) else Err(409);
    }

    method RevokeToken(cred: Credential, kind: Kind, up: bool) returns (ok: bool)
      requires Valid() && Genuine(cred)
      modifies this, cache
      ensures Valid()
      ensures now == old(now) && (ok <==> up || !cred.Signed? || cred.token.kind != kind || cred.token.exp <= now)
      ensures cache.blacklist == if up && cred.Signed? && cred.token.kind == kind && now < cred.token.exp
                                 then old(cache.blacklist)[cred.token := cred.token.exp] else old(cache.blacklist)
      ensures db == if up then RevokeCall(old(db), cred, kind) else old(db)
    {
      if !cred.Signed? || cred.token.kind != kind || cred.token.exp <= now {
        return true;
      }
      var r := cache.AddTokenToBlacklist(now, cred.token, cred.token.exp - now, up);
      if up {
        db := Revoke(db, cred.token, cred.token.exp - db.now);
      }
      return r.Ok?;
    }

    /** A successful logout leaves neither token able to pass its blacklist check while it would still parse. */
    method Logout(access: Credential, refresh: Credential, refreshUp: bool, accessUp: bool) returns (r: Result<()>)
      requires Valid() && Genuine(access) && Genuine(refresh)
      modifies this, cache
      ensures Valid()
      ensures r.Ok? ==> db == RevokeCall(RevokeCall(old(db), refresh, Refresh), access, Access)
      ensures now == old(now)
      ensures r.Ok? && refresh.Signed? && refresh.token.kind == Refresh && now < refresh.token.exp ==>
                refresh.token in cache.blacklist && cache.blacklist[refresh.token] == refresh.token.exp
      ensures r.Ok? && access.Signed? && access.token.kind == Access && now < access.token.exp ==>
                access.token in cache.blacklist && cache.blacklist[access.token] == access.token.exp
      ensures r.Err? <==>
              || (!refreshUp && refresh.Signed? && refresh.token.kind == Refresh && now < refresh.token.exp)
              || (!accessUp && access.Signed? && access.token.kind == Access && now < access.token.exp)
      ensures r.Err? ==> r.code == 503
    {
      var ok := RevokeToken(refresh, Refresh, refreshUp);
      if !ok {
        return Err(503);
      }
      ok := RevokeToken(access, Access, accessUp);
      if !ok {
        return Err(503);
      }
      return Ok(());
    }

    /** `code` is the SMS service's verdict, `id` a new UUID. */
    method VerifyResetCode(code: Result<bool>, phone: string, tableUp: bool, id: ResetId, cacheUp: bool)
      returns (r: Result<ResetId>)
      requires Valid() && id !in db.resets
      modifies this, cache
      ensures Valid()
      ensures r.Ok? <==> && code == Ok(true) && tableUp && cacheUp
                         && phone in table.phones && table.phones[phone] in table.users
      ensures now == old(now)
      ensures r.Ok? ==> r.value == id
      ensures db == if r.Ok? then DoResetStore(old(db), DoResetVerify(old(db), Idle, phone), id, true).0 else old(db)
      ensures cache.resets == if r.Ok? then old(cache.resets)[id := ResetRecord(table.phones[phone],
                                                                              table.users[table.phones[phone]].version,
                                                                              now + 600000)]
                              else old(cache.resets)
    {
      if code.Err? {
        return Err(code.code);
      }
      if !code.value {
        return Err(400);
      }
      var user := table.GetByPhone(phone, tableUp);
      if user.Err? {
        return Err(500);
      }
      if user.value.None? {
        return Err(404);
      }
      var (who, row) := user.value.value;
      var stored := cache.SetResetToken(now, id, who, row.version, RESET_TTL_MS, cacheUp);
      if stored.Err? {
        return Err(500);
      }
      db := DoResetStore(db, DoResetVerify(db, Idle, phone), id, true).0;
      return Ok(id);
    }

    /** `hash` is the hasher's answer. */
    method ResetPassword(id: ResetId, hash: Option<Hash>, loadUp: bool, readUp: bool, swapUp: bool, rereadUp: bool,
                         cleanUp: bool)
      returns (r: Result<()>)
      requires Valid()
      modifies this, table, cache
      ensures Valid()
      ensures r.Ok? <==> && loadUp && readUp && swapUp && hash.Some?
                         && id in old(cache.resets) && now <= old(cache.resets)[id].deadline
                         && old(cache.resets)[id].user in old(table.users)
                         && old(table.users)[old(cache.resets)[id].user].version == old(cache.resets)[id].version
      ensures now == old(now)
      ensures r.Ok? ==>
                var u := old(cache.resets)[id].user;
                table.users == old(table.users)[u := User(hash.value, old(table.users)[u].version + 1,
                                                          old(table.users)[u].active)]
      ensures r.Err? ==> table.users == old(table.users) && cache.resets == old(cache.resets)
      ensures r.Ok? ==>
                var swapped := Swap(old(db), old(db).resets[id].user, hash.value);
                db == if cleanUp then DropReset(swapped, id) else swapped
      ensures r.Err? ==> db == old(db)
    {
      var loaded := cache.GetResetToken(now, id, loadUp);
      if loaded.Err? {
        return Err(500);
      }
      if loaded.value.None? {
        return Err(400);
      }
      var data := loaded.value.value;
      var user := table.GetByID(data.user, readUp);
      if user.Err? {
        return Err(500);
      }
      if user.value.None? {
        return Err(404);
      }
      if hash.None? {
        return Err(500);
      }
      var updated := table.UpdatePassword(data.user, hash.value, data.version, swapUp, rereadUp);
      if updated.Err? {
        return Err(updated.code);
      }
      db := Swap(db, data.user, hash.value);
      cache.DelResetToken(id, cleanUp);
      if cleanUp {
        db := DropReset(db, id);
      }
      return Ok(());
    }
  }
}
