/** What every run of the token lifecycle keeps, and what follows from it. */
module AuthProofs {
  import opened Options
  import opened AuthModel

  // ----- the invariant, one concern at a time -----

  /** No token handed out is ahead of its user, and each was handed out by a call that is done. */
  ghost predicate TokensOk(db: Db) {
    forall t | t in db.origin ::
      && t.user in db.users && 1 <= t.version <= db.users[t.user].version
      && t.jti in db.jtis && db.jtis[t.jti] in db.issuers && db.origin[t].root in db.issuers
  }

  /** The current row is the one recorded under the current version; nothing is recorded ahead of it. */
  ghost predicate HashesOk(db: Db) {
    && (forall u | u in db.users ::
          && 1 <= db.users[u].version
          && (u, db.users[u].version) in db.hashes && db.hashes[(u, db.users[u].version)] == db.users[u].hash)
    && (forall p | p in db.hashes :: p.0 in db.users && p.1 <= db.users[p.0].version)
  }

  ghost predicate Recorded(db: Db, u: UserId, version: nat, hash: Option<Hash>) {
    hash.Some? ==> (u, version) in db.hashes && db.hashes[(u, version)] == hash.value
  }

  /** A token descended from a password login carries the hash recorded under its version. */
  ghost predicate LineageOk(db: Db) {
    forall t | t in db.origin :: Recorded(db, t.user, t.version, db.origin[t].hash)
  }

  ghost predicate NotAhead(db: Db, u: UserId, version: nat) {
    u in db.users && version <= db.users[u].version
  }

  ghost predicate ResetsOk(db: Db) {
    forall id | id in db.resets :: NotAhead(db, db.resets[id].user, db.resets[id].version)
  }

  /** A blacklist entry outlives the token it refuses. */
  ghost predicate BlacklistOk(db: Db) {
    forall t | t in db.blacklist :: t in db.origin && t.exp <= db.blacklist[t]
  }

  /** An unspent refresh token of the family. */
  ghost predicate Unspent(db: Db, t: Token) {
    t in db.origin && t.kind == Refresh && t !in db.blacklist
  }

  ghost predicate FamiliesOk(db: Db) {
    && (forall i | 0 <= i < |db.rotated| :: db.rotated[i] in db.blacklist)
    && (!db.respent ==>
          && (forall a, b | Unspent(db, a) && Unspent(db, b) && db.origin[a].root == db.origin[b].root :: a == b)
          && (forall i, j | 0 <= i < j < |db.rotated| :: db.rotated[i] != db.rotated[j]))
  }

  ghost function SwapsOf(swaps: seq<(UserId, nat)>, u: UserId): nat {
    if swaps == [] then 0
    else SwapsOf(swaps[..|swaps| - 1], u) + if swaps[|swaps| - 1].0 == u then 1 else 0
  }

  ghost predicate SwapsOk(db: Db) {
    && (forall u | u in db.users :: db.users[u].version == 1 + SwapsOf(db.swaps, u))
    && (forall u | u !in db.users :: SwapsOf(db.swaps, u) == 0)
    && (forall i | 0 <= i < |db.swaps| ::
          db.swaps[i].0 in db.users && 1 <= db.swaps[i].1 < db.users[db.swaps[i].0].version)
    && (forall i, j | 0 <= i < j < |db.swaps| :: db.swaps[i] != db.swaps[j])
  }

  ghost predicate IndexOk(db: Db) {
    forall phone | phone in db.phones :: db.phones[phone] in db.users
  }

  datatype Concern = Tokens | Hashes | Lineage | Resets | Blacklisting | Families | Swaps | Index

  ghost predicate Holds(c: Concern, db: Db) {
    match c
    case Tokens => TokensOk(db)
    case Hashes => HashesOk(db)
    case Lineage => LineageOk(db)
    case Resets => ResetsOk(db)
    case Blacklisting => BlacklistOk(db)
    case Families => FamiliesOk(db)
    case Swaps => SwapsOk(db)
    case Index => IndexOk(db)
  }

  ghost predicate DbInv(db: Db) {
    forall c: Concern :: Holds(c, db)
  }

  lemma OpenInv(db: Db)
    requires DbInv(db)
    ensures TokensOk(db) && HashesOk(db) && LineageOk(db) && ResetsOk(db)
    ensures BlacklistOk(db) && FamiliesOk(db) && SwapsOk(db) && IndexOk(db)
  {
    assert Holds(Tokens, db) && Holds(Hashes, db) && Holds(Lineage, db) && Holds(Resets, db);
    assert Holds(Blacklisting, db) && Holds(Families, db) && Holds(Swaps, db) && Holds(Index, db);
  }

  lemma CloseInv(db: Db)
    requires TokensOk(db) && HashesOk(db) && LineageOk(db) && ResetsOk(db)
    requires BlacklistOk(db) && FamiliesOk(db) && SwapsOk(db) && IndexOk(db)
    ensures DbInv(db)
  {
  }

  /** A presented token that `Logout` has dealt with: refused by the blacklist or expired. */
  ghost predicate Settled(db: Db, p: Presented) {
    p.token.Some? ==>
      p.token.value in db.origin
      && (p.token.value.kind == p.kind ==> p.token.value in db.blacklist || p.token.value.exp <= db.now)
  }

  ghost predicate LogoutOk(db: Db, all: seq<Presented>, at: nat) {
    && at <= |all|
    && (forall i | 0 <= i < |all| && all[i].token.Some? :: all[i].token.value in db.origin)
    && (forall i | 0 <= i < at :: Settled(db, all[i]))
  }

  /** What a call in progress may rely on. */
  ghost predicate PcOk(db: Db, call: CallId, pc: Pc) {
    match pc
    case AuthParsed(t) => t in db.origin && t.kind == Access
    case AuthCleared(t, _) => t in db.origin && t.kind == Access
    case Signing(u, version, hash) =>
      call !in db.issuers && NotAhead(db, u, version) && 1 <= version && Recorded(db, u, version, hash)
    case RefreshParsed(t) => t in db.origin && t.kind == Refresh && call !in db.issuers
    case RefreshAllowed(t) => t in db.origin && t.kind == Refresh && call !in db.issuers
    case Consuming(t, ttl, a, r) =>
      && t in db.origin && t.kind == Refresh && call !in db.issuers && t.exp <= db.now + ttl
      && a.kind == Access && a.user == t.user && a.version == t.version
      && r.kind == Refresh && r.user == t.user && r.version == t.version
      && a.jti in db.jtis && db.jtis[a.jti] == call && r.jti in db.jtis && db.jtis[r.jti] == call
    case LoggingOut(all, at) => LogoutOk(db, all, at)
    case Revoking(all, at, ttl) =>
      LogoutOk(db, all, at) && at < |all| && all[at].token.Some? && all[at].token.value.exp <= db.now + ttl
    case LoggedOut(all) => LogoutOk(db, all, |all|)
    case ResetVerified(u, version) => NotAhead(db, u, version)
    case ResetLoaded(_, u, version) => NotAhead(db, u, version)
    case ResetReady(_, u, version) => NotAhead(db, u, version)
    case Idle => call !in db.issuers
    case _ => true
  }

  ghost predicate Inv(s: State) {
    DbInv(s.db) && (forall call :: PcOk(s.db, call, PcOf(s, call)))
  }

  /** How the stores may change under a call: nothing another call relies on is taken back. */
  ghost predicate Grows(db: Db, db': Db, call: CallId) {
    && db.now <= db'.now
    && (forall u | u in db.users :: u in db'.users && db.users[u].version <= db'.users[u].version)
    && (forall p | p in db.hashes :: p in db'.hashes && db'.hashes[p] == db.hashes[p])
    && (forall t | t in db.origin :: t in db'.origin && db'.origin[t] == db.origin[t])
    && (forall j | j in db.jtis :: j in db'.jtis && db'.jtis[j] == db.jtis[j])
    && db.blacklist.Keys <= db'.blacklist.Keys
    && db.issuers <= db'.issuers <= db.issuers + {call}
  }

  lemma OthersKeepPc(db: Db, db': Db, call: CallId, other: CallId, pc: Pc)
    requires Grows(db, db', call) && PcOk(db, other, pc) && other != call
    ensures PcOk(db', other, pc)
  {
  }

  // ----- what a write leaves alone stays sound -----

  lemma TokensFrame(db: Db, db': Db, call: CallId)
    requires TokensOk(db) && Grows(db, db', call) && db'.origin == db.origin
    ensures TokensOk(db')
  {
  }

  lemma LineageFrame(db: Db, db': Db, call: CallId)
    requires LineageOk(db) && Grows(db, db', call) && db'.origin == db.origin
    ensures LineageOk(db')
  {
    forall t | t in db'.origin ensures Recorded(db', t.user, t.version, db'.origin[t].hash) {
      assert Recorded(db, t.user, t.version, db.origin[t].hash);
    }
  }

  lemma ResetsFrame(db: Db, db': Db, call: CallId)
    requires ResetsOk(db) && Grows(db, db', call)
    requires forall id | id in db'.resets :: id in db.resets && db'.resets[id] == db.resets[id]
    ensures ResetsOk(db')
  {
    forall id | id in db'.resets ensures NotAhead(db', db'.resets[id].user, db'.resets[id].version) {
      assert NotAhead(db, db.resets[id].user, db.resets[id].version);
    }
  }

  lemma BlacklistFrame(db: Db, db': Db, call: CallId)
    requires BlacklistOk(db) && Grows(db, db', call) && db'.blacklist == db.blacklist
    ensures BlacklistOk(db')
  {
  }

  lemma FamiliesFrame(db: Db, db': Db)
    requires FamiliesOk(db) && db'.origin == db.origin && db'.blacklist == db.blacklist
    requires db'.rotated == db.rotated && db'.respent == db.respent
    ensures FamiliesOk(db')
  {
    forall t ensures Unspent(db', t) == Unspent(db, t) {
    }
  }

  lemma HashesFrame(db: Db, db': Db)
    requires HashesOk(db) && db'.hashes == db.hashes && db'.users.Keys == db.users.Keys
    requires forall u | u in db.users :: db'.users[u].version == db.users[u].version
    requires forall u | u in db.users :: db'.users[u].hash == db.users[u].hash
    ensures HashesOk(db')
  {
  }

  lemma SwapsFrame(db: Db, db': Db)
    requires SwapsOk(db) && db'.swaps == db.swaps && db'.users.Keys == db.users.Keys
    requires forall u | u in db.users :: db'.users[u].version == db.users[u].version
    ensures SwapsOk(db')
  {
  }

  lemma IndexFrame(db: Db, db': Db, call: CallId)
    requires IndexOk(db) && Grows(db, db', call) && db'.phones == db.phones
    ensures IndexOk(db')
  {
  }

  /** The user rows keep their versions and hashes, and nothing else that the invariant reads changed. */
  lemma SameRecordsKeep(db: Db, db': Db, call: CallId)
    requires DbInv(db) && Grows(db, db', call)
    requires db'.origin == db.origin && db'.blacklist == db.blacklist && db'.phones == db.phones
    requires db'.rotated == db.rotated && db'.respent == db.respent && db'.hashes == db.hashes && db'.swaps == db.swaps
    requires db'.users.Keys == db.users.Keys
    requires forall u | u in db.users :: db'.users[u].version == db.users[u].version
    requires forall u | u in db.users :: db'.users[u].hash == db.users[u].hash
    requires forall id | id in db'.resets :: id in db.resets && db'.resets[id] == db.resets[id]
    ensures DbInv(db')
  {
    OpenInv(db);
    TokensFrame(db, db', call);
    LineageFrame(db, db', call);
    ResetsFrame(db, db', call);
    BlacklistFrame(db, db', call);
    FamiliesFrame(db, db');
    HashesFrame(db, db');
    SwapsFrame(db, db');
    IndexFrame(db, db', call);
    CloseInv(db');
  }

  // ----- registration -----

  lemma CreateRows(db: Db, u: UserId, username: string, phone: string, hash: Hash)
    requires HashesOk(db) && SwapsOk(db) && u !in db.users
    ensures HashesOk(Create(db, u, username, phone, hash)) && SwapsOk(Create(db, u, username, phone, hash))
  {
  }

  lemma CreateGrows(db: Db, call: CallId, u: UserId, username: string, phone: string, hash: Hash)
    requires HashesOk(db) && IndexOk(db) && u !in db.users
    ensures Grows(db, Create(db, u, username, phone, hash), call)
    ensures IndexOk(Create(db, u, username, phone, hash))
  {
    assert (u, 1) !in db.hashes;
  }

  lemma CreateKeeps(db: Db, call: CallId, u: UserId, username: string, phone: string, hash: Hash)
    requires DbInv(db) && u !in db.users
    ensures DbInv(Create(db, u, username, phone, hash)) && Grows(db, Create(db, u, username, phone, hash), call)
  {
    OpenInv(db);
    var db' := Create(db, u, username, phone, hash);
    CreateRows(db, u, username, phone, hash);
    CreateGrows(db, call, u, username, phone, hash);
    TokensFrame(db, db', call);
    LineageFrame(db, db', call);
    ResetsFrame(db, db', call);
    BlacklistFrame(db, db', call);
    FamiliesFrame(db, db');
    CloseInv(db');
  }

  // ----- handing out tokens -----

  /** A token whose id this unfinished call claimed has not been handed out. */
  lemma ClaimedIsNew(db: Db, call: CallId, t: Token)
    requires TokensOk(db) && call !in db.issuers
    requires t.jti in db.jtis && db.jtis[t.jti] == call
    ensures t !in db.origin
  {
  }

  lemma HandOutKeepsTokens(db: Db, call: CallId, a: Token, r: Token, o: Origin)
    requires TokensOk(db) && LineageOk(db) && NotAhead(db, a.user, a.version) && 1 <= a.version
    requires r.user == a.user && r.version == a.version && Recorded(db, a.user, a.version, o.hash)
    requires a.jti in db.jtis && db.jtis[a.jti] == call && r.jti in db.jtis && db.jtis[r.jti] == call
    requires o.root == call || o.root in db.issuers
    ensures TokensOk(HandOut(db, call, a, r, o)) && LineageOk(HandOut(db, call, a, r, o))
  {
    var db' := HandOut(db, call, a, r, o);
    forall t | t in db'.origin ensures Recorded(db', t.user, t.version, db'.origin[t].hash) {
      if t != a && t != r {
        assert Recorded(db, t.user, t.version, db.origin[t].hash);
      }
    }
  }

  /** A login starts a family of its own. */
  lemma NewFamilyKeeps(db: Db, call: CallId, a: Token, r: Token, o: Origin)
    requires FamiliesOk(db) && TokensOk(db) && BlacklistOk(db) && call !in db.issuers && o.root == call
    requires a !in db.origin && r !in db.origin && a.kind == Access && r.kind == Refresh
    ensures FamiliesOk(HandOut(db, call, a, r, o))
  {
    var db' := HandOut(db, call, a, r, o);
    forall x | Unspent(db', x) && x != r ensures Unspent(db, x) && db'.origin[x] == db.origin[x] {
    }
    forall x | Unspent(db, x) ensures db.origin[x].root != call {
    }
  }

  lemma HandOutGrows(db: Db, call: CallId, a: Token, r: Token, o: Origin)
    requires a !in db.origin && r !in db.origin
    ensures Grows(db, HandOut(db, call, a, r, o), call)
  {
  }

  lemma ClaimKeeps(db: Db, call: CallId, ja: Jti, jr: Jti)
    requires DbInv(db) && FreshPair(db, ja, jr)
    ensures DbInv(ClaimPair(db, call, ja, jr)) && Grows(db, ClaimPair(db, call, ja, jr), call)
  {
    SameRecordsKeep(db, ClaimPair(db, call, ja, jr), call);
  }

  /** Handing out a new family keeps the stores sound. */
  lemma HandOutKeeps(db: Db, call: CallId, a: Token, r: Token, o: Origin)
    requires DbInv(db) && call !in db.issuers && o.root == call
    requires NotAhead(db, a.user, a.version) && 1 <= a.version && Recorded(db, a.user, a.version, o.hash)
    requires a.kind == Access && r.kind == Refresh && r.user == a.user && r.version == a.version
    requires a.jti in db.jtis && db.jtis[a.jti] == call && r.jti in db.jtis && db.jtis[r.jti] == call
    ensures DbInv(HandOut(db, call, a, r, o)) && Grows(db, HandOut(db, call, a, r, o), call)
  {
    OpenInv(db);
    ClaimedIsNew(db, call, a);
    ClaimedIsNew(db, call, r);
    HandOutKeepsTokens(db, call, a, r, o);
    NewFamilyKeeps(db, call, a, r, o);
    var db' := HandOut(db, call, a, r, o);
    HandOutGrows(db, call, a, r, o);
    BlacklistFrame(db, db', call);
    ResetsFrame(db, db', call);
    HashesFrame(db, db');
    SwapsFrame(db, db');
    IndexFrame(db, db', call);
    CloseInv(db');
  }

  lemma GrowsTwice(a: Db, b: Db, c: Db, call: CallId)
    requires Grows(a, b, call) && Grows(b, c, call)
    ensures Grows(a, c, call)
  {
  }

  // ----- rotation -----

  /** Until a token has expired, its blacklist entry cannot have been forgotten. */
  lemma UnexpiredIsRemembered(m: Memory, db: Db, t: Token)
    requires BlacklistOk(db) && db.now <= t.exp
    ensures Blacklisted(m, db, t) <==> t in db.blacklist
  {
  }

  lemma SpendKeepsFamilies(m: Memory, db: Db, call: CallId, pc: Pc)
    requires FamiliesOk(db) && BlacklistOk(db) && TokensOk(db) && PcOk(db, call, pc) && pc.Consuming?
    requires !Blacklisted(m, db, pc.token) && pc.access !in db.origin && pc.refresh !in db.origin
    ensures FamiliesOk(Spend(db, call, pc))
  {
    var t, db' := pc.token, Spend(db, call, pc);
    if !db'.respent {
      assert Unspent(db, t);
      forall x | Unspent(db', x) && x != pc.refresh ensures Unspent(db, x) && x != t && db'.origin[x] == db.origin[x] {
      }
      forall x | Unspent(db', x) && db'.origin[x].root == db.origin[t].root ensures x == pc.refresh {
      }
    }
  }

  lemma SpendKeepsBlacklist(db: Db, call: CallId, pc: Pc)
    requires BlacklistOk(db) && PcOk(db, call, pc) && pc.Consuming?
    ensures BlacklistOk(Spend(db, call, pc))
  {
  }

  lemma SpendGrows(db: Db, call: CallId, pc: Pc)
    requires pc.Consuming? && pc.token in db.origin && pc.access !in db.origin && pc.refresh !in db.origin
    ensures Grows(db, Spend(db, call, pc), call)
  {
  }

  lemma SpendKeeps(m: Memory, db: Db, call: CallId, pc: Pc)
    requires DbInv(db) && PcOk(db, call, pc) && pc.Consuming? && !Blacklisted(m, db, pc.token)
    ensures DbInv(Spend(db, call, pc)) && Grows(db, Spend(db, call, pc), call)
  {
    OpenInv(db);
    var t, db' := pc.token, Spend(db, call, pc);
    ClaimedIsNew(db, call, pc.access);
    ClaimedIsNew(db, call, pc.refresh);
    SpendKeepsFamilies(m, db, call, pc);
    SpendKeepsBlacklist(db, call, pc);
    SpendGrows(db, call, pc);
    assert Recorded(db, t.user, t.version, db.origin[t].hash);
    var handed := HandOut(db, call, pc.access, pc.refresh, db.origin[t]);
    HandOutKeepsTokens(db, call, pc.access, pc.refresh, db.origin[t]);
    assert TokensOk(db') by {
      assert TokensOk(handed);
    }
    assert LineageOk(db') by {
      HandedLineage(handed, db');
    }
    ResetsFrame(db, db', call);
    HashesFrame(db, db');
    SwapsFrame(db, db');
    IndexFrame(db, db', call);
    CloseInv(db');
  }

  lemma HandedLineage(db: Db, db': Db)
    requires LineageOk(db) && db'.origin == db.origin && db'.hashes == db.hashes
    ensures LineageOk(db')
  {
    forall t | t in db'.origin ensures Recorded(db', t.user, t.version, db'.origin[t].hash) {
      assert Recorded(db, t.user, t.version, db.origin[t].hash);
    }
  }

  // ----- logout -----

  lemma RevokeKeeps(db: Db, call: CallId, t: Token, ttl: int)
    requires DbInv(db) && t in db.origin && t.exp <= db.now + ttl
    ensures DbInv(Revoke(db, t, ttl)) && Grows(db, Revoke(db, t, ttl), call)
  {
    OpenInv(db);
    var db' := Revoke(db, t, ttl);
    assert Grows(db, db', call);
    TokensFrame(db, db', call);
    LineageFrame(db, db', call);
    ResetsFrame(db, db', call);
    HashesFrame(db, db');
    SwapsFrame(db, db');
    IndexFrame(db, db', call);
    RevokeKeepsFamilies(db, t, ttl);
    CloseInv(db');
  }

  lemma RevokeKeepsFamilies(db: Db, t: Token, ttl: int)
    requires FamiliesOk(db) && BlacklistOk(db) && t in db.origin && t.exp <= db.now + ttl
    ensures FamiliesOk(Revoke(db, t, ttl)) && BlacklistOk(Revoke(db, t, ttl))
  {
    var db' := Revoke(db, t, ttl);
    forall x | Unspent(db', x) ensures Unspent(db, x) {
    }
  }

  lemma SettledLater(db: Db, db': Db, call: CallId, p: Presented)
    requires Settled(db, p) && Grows(db, db', call)
    ensures Settled(db', p)
  {
  }

  lemma LogoutStays(db: Db, db': Db, call: CallId, all: seq<Presented>, at: nat)
    requires LogoutOk(db, all, at) && Grows(db, db', call)
    ensures LogoutOk(db', all, at)
  {
    forall i | 0 <= i < at ensures Settled(db', all[i]) {
      SettledLater(db, db', call, all[i]);
    }
  }

  lemma LogoutAdvances(db: Db, call: CallId, all: seq<Presented>, at: nat)
    requires LogoutOk(db, all, at) && at < |all| && Settled(db, all[at])
    ensures PcOk(db, call, NextLogout(all, at + 1))
  {
  }

  // ----- password reset -----

  lemma SwapKeepsRows(db: Db, u: UserId, hash: Hash)
    requires HashesOk(db) && u in db.users
    ensures HashesOk(Swap(db, u, hash))
    ensures (u, db.users[u].version + 1) !in db.hashes
  {
  }

  lemma SwapKeepsSwaps(db: Db, u: UserId, hash: Hash)
    requires SwapsOk(db) && u in db.users && 1 <= db.users[u].version
    ensures SwapsOk(Swap(db, u, hash))
  {
    var db' := Swap(db, u, hash);
    assert db'.swaps[..|db.swaps|] == db.swaps;
    forall x ensures SwapsOf(db'.swaps, x) == SwapsOf(db.swaps, x) + if x == u then 1 else 0 {
    }
  }

  lemma SwapGrows(db: Db, call: CallId, u: UserId, hash: Hash)
    requires HashesOk(db) && u in db.users
    ensures Grows(db, Swap(db, u, hash), call)
  {
  }

  lemma SwapKeeps(db: Db, call: CallId, u: UserId, hash: Hash)
    requires DbInv(db) && u in db.users
    ensures DbInv(Swap(db, u, hash)) && Grows(db, Swap(db, u, hash), call)
  {
    OpenInv(db);
    var db' := Swap(db, u, hash);
    SwapKeepsRows(db, u, hash);
    SwapKeepsSwaps(db, u, hash);
    SwapGrows(db, call, u, hash);
    TokensFrame(db, db', call);
    LineageFrame(db, db', call);
    ResetsFrame(db, db', call);
    BlacklistFrame(db, db', call);
    FamiliesFrame(db, db');
    IndexFrame(db, db', call);
    CloseInv(db');
  }

  lemma ResetStoreKeeps(db: Db, call: CallId, id: ResetId, r: ResetRecord)
    requires DbInv(db) && id !in db.resets && NotAhead(db, r.user, r.version)
    ensures DbInv(PutReset(db, id, r)) && Grows(db, PutReset(db, id, r), call)
  {
    OpenInv(db);
    var db' := PutReset(db, id, r);
    assert Grows(db, db', call);
    StoredResetOk(db, id, r);
    TokensFrame(db, db', call);
    LineageFrame(db, db', call);
    BlacklistFrame(db, db', call);
    FamiliesFrame(db, db');
    HashesFrame(db, db');
    SwapsFrame(db, db');
    IndexFrame(db, db', call);
    CloseInv(db');
  }

  lemma StoredResetOk(db: Db, id: ResetId, r: ResetRecord)
    requires ResetsOk(db) && NotAhead(db, r.user, r.version)
    ensures ResetsOk(PutReset(db, id, r))
  {
    var db' := PutReset(db, id, r);
    forall x | x in db'.resets ensures NotAhead(db', db'.resets[x].user, db'.resets[x].version) {
      assert x != id ==> NotAhead(db, db.resets[x].user, db.resets[x].version);
    }
  }

  // ----- every action -----

  /** The action leaves the stores sound, the call justified and the other calls undisturbed. */
  ghost predicate Sound(db: Db, call: CallId, after: (Db, Pc)) {
    DbInv(after.0) && PcOk(after.0, call, after.1) && Grows(db, after.0, call)
  }

  lemma StutterSound(db: Db, call: CallId, pc: Pc)
    requires DbInv(db) && PcOk(db, call, pc)
    ensures Sound(db, call, (db, pc))
  {
  }

  lemma FinishedSound(db: Db, call: CallId, db': Db)
    requires DbInv(db') && Grows(db, db', call)
    ensures Sound(db, call, (db', Finished))
  {
  }

  lemma CreateSound(db: Db, call: CallId, pc: Pc, u: UserId, username: string, phone: string, hash: Hash)
    requires DbInv(db) && PcOk(db, call, pc)
    ensures Sound(db, call, DoCreate(db, pc, u, username, phone, hash))
  {
    if pc.Idle? && u !in db.users && phone !in db.phones && username !in db.names {
      CreateKeeps(db, call, u, username, phone, hash);
    } else {
      StutterSound(db, call, pc);
      FinishedSound(db, call, db);
    }
  }

  lemma SignSound(db: Db, call: CallId, pc: Pc, ja: Jti, jr: Jti)
    requires DbInv(db) && PcOk(db, call, pc)
    ensures Sound(db, call, DoSign(db, call, pc, ja, jr))
  {
    if pc.Signing? && FreshPair(db, ja, jr) {
      var mid := ClaimPair(db, call, ja, jr);
      ClaimKeeps(db, call, ja, jr);
      var a, r := NewAccess(db, pc.user, pc.version, ja), NewRefresh(db, pc.user, pc.version, jr);
      HandOutKeeps(mid, call, a, r, Origin(call, pc.hash));
      GrowsTwice(db, mid, HandOut(mid, call, a, r, Origin(call, pc.hash)), call);
      FinishedSound(db, call, HandOut(mid, call, a, r, Origin(call, pc.hash)));
    } else {
      StutterSound(db, call, pc);
    }
  }

  lemma RefreshSignSound(db: Db, call: CallId, pc: Pc, ja: Jti, jr: Jti)
    requires DbInv(db) && PcOk(db, call, pc)
    ensures Sound(db, call, DoRefreshSign(db, call, pc, ja, jr))
  {
    if pc.RefreshAllowed? && db.now < pc.token.exp && FreshPair(db, ja, jr) {
      ClaimKeeps(db, call, ja, jr);
      RefreshSignPc(db, call, pc, ja, jr);
    } else {
      StutterSound(db, call, DoRefreshSign(db, call, pc, ja, jr).1);
    }
  }

  lemma RefreshSignPc(db: Db, call: CallId, pc: Pc, ja: Jti, jr: Jti)
    requires PcOk(db, call, pc) && pc.RefreshAllowed? && db.now < pc.token.exp && FreshPair(db, ja, jr)
    ensures PcOk(ClaimPair(db, call, ja, jr), call, DoRefreshSign(db, call, pc, ja, jr).1)
    ensures DoRefreshSign(db, call, pc, ja, jr).0 == ClaimPair(db, call, ja, jr)
  {
  }

  lemma ConsumeSound(m: Memory, db: Db, call: CallId, pc: Pc, up: bool)
    requires DbInv(db) && PcOk(db, call, pc)
    ensures Sound(db, call, DoConsume(m, db, call, pc, up))
  {
    if pc.Consuming? && up && !Blacklisted(m, db, pc.token) {
      SpendKeeps(m, db, call, pc);
      FinishedSound(db, call, Spend(db, call, pc));
    } else {
      StutterSound(db, call, DoConsume(m, db, call, pc, up).1);
    }
  }

  lemma LogoutParsePc(db: Db, call: CallId, pc: Pc)
    requires PcOk(db, call, pc)
    ensures PcOk(db, call, DoLogoutParse(db, pc))
  {
    if pc.LoggingOut? && pc.at < |pc.all| {
      var p := pc.all[pc.at];
      if !(p.token.Some? && Parses(db, p.token.value, p.kind)) {
        LogoutAdvances(db, call, pc.all, pc.at);
      }
    }
  }

  lemma LogoutWriteSound(db: Db, call: CallId, pc: Pc, up: bool)
    requires DbInv(db) && PcOk(db, call, pc)
    ensures Sound(db, call, DoLogoutWrite(db, pc, up))
  {
    if pc.Revoking? && up {
      RevokeKeeps(db, call, pc.all[pc.at].token.value, pc.ttl);
      LogoutWritePc(db, call, pc);
    } else {
      StutterSound(db, call, DoLogoutWrite(db, pc, up).1);
    }
  }

  lemma LogoutWritePc(db: Db, call: CallId, pc: Pc)
    requires PcOk(db, call, pc) && pc.Revoking?
    ensures PcOk(Revoke(db, pc.all[pc.at].token.value, pc.ttl), call, NextLogout(pc.all, pc.at + 1))
  {
    var db' := Revoke(db, pc.all[pc.at].token.value, pc.ttl);
    assert Grows(db, db', call);
    LogoutStays(db, db', call, pc.all, pc.at);
    LogoutAdvances(db', call, pc.all, pc.at);
  }

  lemma ResetStoreSound(db: Db, call: CallId, pc: Pc, id: ResetId, up: bool)
    requires DbInv(db) && PcOk(db, call, pc)
    ensures Sound(db, call, DoResetStore(db, pc, id, up))
  {
    if pc.ResetVerified? && id !in db.resets && up {
      var r := ResetRecord(pc.user, pc.version, db.now + RESET_TTL_MS);
      ResetStoreKeeps(db, call, id, r);
      FinishedSound(db, call, PutReset(db, id, r));
    } else {
      StutterSound(db, call, DoResetStore(db, pc, id, up).1);
    }
  }

  lemma ResetSwapSound(db: Db, call: CallId, pc: Pc, hash: Hash, up: bool)
    requires DbInv(db) && PcOk(db, call, pc)
    ensures Sound(db, call, DoResetSwap(db, pc, hash, up))
  {
    if pc.ResetReady? && up && SwapMatches(db, pc.user, pc.version) {
      SwapKeeps(db, call, pc.user, hash);
    } else {
      StutterSound(db, call, DoResetSwap(db, pc, hash, up).1);
    }
  }

  lemma ResetCleanSound(db: Db, call: CallId, pc: Pc, up: bool)
    requires DbInv(db) && PcOk(db, call, pc)
    ensures Sound(db, call, DoResetClean(db, pc, up))
  {
    if pc.ResetDone? && up {
      SameRecordsKeep(db, DropReset(db, pc.id), call);
      FinishedSound(db, call, DropReset(db, pc.id));
    } else {
      StutterSound(db, call, DoResetClean(db, pc, up).1);
    }
  }

  /** Actions that only read justify the call's next step. */
  lemma ParsePc(m: Memory, db: Db, call: CallId, pc: Pc, t: Token)
    requires PcOk(db, call, pc)
    ensures PcOk(db, call, DoAuthParse(db, pc, t)) && PcOk(db, call, DoRefreshParse(db, pc, t))
    ensures PcOk(db, call, DoAuthLookup(m, db, pc))
    ensures PcOk(db, call, DoRefreshRead(db, pc))
  {
  }

  lemma ReadByPhonePc(db: Db, call: CallId, pc: Pc, phone: string, ok: bool)
    requires HashesOk(db) && PcOk(db, call, pc)
    ensures PcOk(db, call, DoLoginRead(db, pc, phone, ok)) && PcOk(db, call, DoSmsLoginRead(db, pc, phone))
    ensures PcOk(db, call, DoResetVerify(db, pc, phone))
  {
  }

  lemma ResetReadPc(db: Db, call: CallId, pc: Pc, id: ResetId)
    requires ResetsOk(db) && PcOk(db, call, pc)
    ensures PcOk(db, call, DoResetLoad(db, pc, id)) && PcOk(db, call, DoResetRead(db, pc))
  {
    if id in db.resets {
      assert NotAhead(db, db.resets[id].user, db.resets[id].version);
    }
  }

  lemma LogoutStartPc(db: Db, call: CallId, pc: Pc, refresh: Option<Token>, access: Option<Token>)
    requires PcOk(db, call, pc)
    ensures PcOk(db, call, DoLogoutStart(db, pc, refresh, access))
  {
  }

  lemma AcceptSound(db: Db, call: CallId, pc: Pc)
    requires DbInv(db) && PcOk(db, call, pc)
    ensures Sound(db, call, DoAuthRead(db, pc))
  {
    if pc.AuthCleared? && RowAdmits(db, pc.token) {
      var db' := db.(accepted := db.accepted + [pc.token]);
      SameRecordsKeep(db, db', call);
      FinishedSound(db, call, db');
    } else {
      StutterSound(db, call, DoAuthRead(db, pc).1);
    }
  }

  lemma AuthActs(m: Memory, db: Db, call: CallId, pc: Pc, a: Action)
    requires DbInv(db) && PcOk(db, call, pc)
    requires a.AuthParse? || a.AuthLookup? || a.AuthReadUser? || a.RefreshParse? || a.RefreshReadUser?
    ensures Sound(db, call, Act(m, db, call, pc, a))
  {
    match a
    case AuthParse(t) => ParsePc(m, db, call, pc, t); StutterSound(db, call, DoAuthParse(db, pc, t));
    case AuthLookup =>
      ParsePc(m, db, call, pc, Token(Access, 0, 0, 0, 0));
      StutterSound(db, call, DoAuthLookup(m, db, pc));
    case AuthReadUser => AcceptSound(db, call, pc);
    case RefreshParse(t) => ParsePc(m, db, call, pc, t); StutterSound(db, call, DoRefreshParse(db, pc, t));
    case RefreshReadUser =>
      ParsePc(m, db, call, pc, Token(Access, 0, 0, 0, 0));
      StutterSound(db, call, DoRefreshRead(db, pc));
  }

  lemma ByPhoneActs(m: Memory, db: Db, call: CallId, pc: Pc, a: Action)
    requires DbInv(db) && PcOk(db, call, pc) && (a.LoginRead? || a.SmsLoginRead? || a.ResetVerify?)
    ensures Sound(db, call, Act(m, db, call, pc, a))
  {
    OpenInv(db);
    ReadByPhonePc(db, call, pc, a.phone, a.LoginRead? && a.passwordOk);
    StutterSound(db, call, Act(m, db, call, pc, a).1);
  }

  lemma IssueActs(m: Memory, db: Db, call: CallId, pc: Pc, a: Action)
    requires DbInv(db) && PcOk(db, call, pc) && (a.RegisterCreate? || a.Sign?)
    ensures Sound(db, call, Act(m, db, call, pc, a))
  {
    match a
    case RegisterCreate(u, username, phone, hash) => CreateSound(db, call, pc, u, username, phone, hash);
    case Sign(ja, jr) => SignSound(db, call, pc, ja, jr);
  }

  lemma RotateActs(m: Memory, db: Db, call: CallId, pc: Pc, a: Action)
    requires DbInv(db) && PcOk(db, call, pc) && (a.RefreshSign? || a.Consume?)
    ensures Sound(db, call, Act(m, db, call, pc, a))
  {
    match a
    case RefreshSign(ja, jr) => RefreshSignSound(db, call, pc, ja, jr);
    case Consume(up) => ConsumeSound(m, db, call, pc, up);
  }

  lemma LogoutActs(m: Memory, db: Db, call: CallId, pc: Pc, a: Action)
    requires DbInv(db) && PcOk(db, call, pc) && (a.LogoutStart? || a.LogoutParse? || a.LogoutWrite?)
    ensures Sound(db, call, Act(m, db, call, pc, a))
  {
    match a
    case LogoutStart(r, x) => LogoutStartPc(db, call, pc, r, x); StutterSound(db, call, DoLogoutStart(db, pc, r, x));
    case LogoutParse => LogoutParsePc(db, call, pc); StutterSound(db, call, DoLogoutParse(db, pc));
    case LogoutWrite(up) => LogoutWriteSound(db, call, pc, up);
  }

  lemma ResetReadActs(m: Memory, db: Db, call: CallId, pc: Pc, a: Action)
    requires DbInv(db) && PcOk(db, call, pc) && (a.ResetLoad? || a.ResetReadUser?)
    ensures Sound(db, call, Act(m, db, call, pc, a))
  {
    OpenInv(db);
    ResetReadPc(db, call, pc, if a.ResetLoad? then a.id else 0);
    StutterSound(db, call, Act(m, db, call, pc, a).1);
  }

  lemma ResetWriteActs(m: Memory, db: Db, call: CallId, pc: Pc, a: Action)
    requires DbInv(db) && PcOk(db, call, pc) && (a.ResetStore? || a.ResetSwap? || a.ResetClean?)
    ensures Sound(db, call, Act(m, db, call, pc, a))
  {
    match a
    case ResetStore(id, up) => ResetStoreSound(db, call, pc, id, up);
    case ResetSwap(hash, up) => ResetSwapSound(db, call, pc, hash, up);
    case ResetClean(up) => ResetCleanSound(db, call, pc, up);
  }

  lemma ActKeeps(m: Memory, db: Db, call: CallId, pc: Pc, a: Action)
    requires DbInv(db) && PcOk(db, call, pc)
    ensures Sound(db, call, Act(m, db, call, pc, a))
  {
    if a.AuthParse? || a.AuthLookup? || a.AuthReadUser? || a.RefreshParse? || a.RefreshReadUser? {
      AuthActs(m, db, call, pc, a);
    } else if a.LoginRead? || a.SmsLoginRead? || a.ResetVerify? {
      ByPhoneActs(m, db, call, pc, a);
    } else if a.RegisterCreate? || a.Sign? {
      IssueActs(m, db, call, pc, a);
    } else if a.RefreshSign? || a.Consume? {
      RotateActs(m, db, call, pc, a);
    } else if a.LogoutStart? || a.LogoutParse? || a.LogoutWrite? {
      LogoutActs(m, db, call, pc, a);
    } else if a.ResetLoad? || a.ResetReadUser? {
      ResetReadActs(m, db, call, pc, a);
    } else {
      ResetWriteActs(m, db, call, pc, a);
    }
  }

  lemma ActGrows(m: Memory, s: State, call: CallId, a: Action)
    requires Inv(s)
    ensures Grows(s.db, Act(m, s.db, call, PcOf(s, call), a).0, call)
  {
    ActKeeps(m, s.db, call, PcOf(s, call), a);
  }

  /** The other calls stay justified by whatever grew. */
  lemma CallsStay(s: State, db': Db, call: CallId, pc': Pc)
    requires forall c :: PcOk(s.db, c, PcOf(s, c))
    requires Grows(s.db, db', call) && PcOk(db', call, pc')
    ensures var s' := State(db', s.calls[call := pc']); forall c :: PcOk(db', c, PcOf(s', c))
  {
    var s' := State(db', s.calls[call := pc']);
    forall c ensures PcOk(db', c, PcOf(s', c)) {
      if c != call {
        OthersKeepPc(s.db, db', call, c, PcOf(s, c));
      }
    }
  }

  lemma DoKeeps(m: Memory, s: State, call: CallId, a: Action)
    requires Inv(s)
    ensures Inv(Apply(m, s, Do(call, a)))
  {
    ActKeeps(m, s.db, call, PcOf(s, call), a);
    var after := Act(m, s.db, call, PcOf(s, call), a);
    CallsStay(s, after.0, call, after.1);
  }

  lemma EnvironmentKeepsCalls(s: State, db': Db)
    requires forall c :: PcOk(s.db, c, PcOf(s, c))
    requires forall call: CallId :: Grows(s.db, db', call)
    ensures var s' := s.(db := db'); forall c :: PcOk(db', c, PcOf(s', c))
  {
    var s' := s.(db := db');
    forall c: CallId ensures PcOk(db', c, PcOf(s', c)) {
      OthersKeepPc(s.db, db', c + 1, c, PcOf(s, c));
    }
  }

  lemma EnvironmentKeeps(s: State, db': Db)
    requires Inv(s) && s.db.now <= db'.now && db' == s.db.(now := db'.now, users := db'.users)
    requires db'.users.Keys == s.db.users.Keys
    requires forall u | u in s.db.users :: db'.users[u].version == s.db.users[u].version
    requires forall u | u in s.db.users :: db'.users[u].hash == s.db.users[u].hash
    ensures Inv(s.(db := db'))
  {
    forall call: CallId ensures Grows(s.db, db', call) {
    }
    SameRecordsKeep(s.db, db', 0);
    EnvironmentKeepsCalls(s, db');
  }

  lemma ApplyKeeps(m: Memory, s: State, e: Event)
    requires Inv(s)
    ensures Inv(Apply(m, s, e))
  {
    match e
    case Do(call, a) => DoKeeps(m, s, call, a);
    case Tick(ms) => EnvironmentKeeps(s, Apply(m, s, e).db);
    case SetActive(_, _) => EnvironmentKeeps(s, Apply(m, s, e).db);
  }

  lemma {:induction false} RunInv(m: Memory, cfg: Config, events: seq<Event>)
    ensures Inv(Run(m, cfg, events))
    decreases |events|
  {
    if events != [] {
      RunInv(m, cfg, events[..|events| - 1]);
      ApplyKeeps(m, Run(m, cfg, events[..|events| - 1]), events[|events| - 1]);
    }
  }

  // ----- later states -----

  function RunFrom(m: Memory, s: State, events: seq<Event>): State
    decreases |events|
  {
    if events == [] then s
    else Apply(m, RunFrom(m, s, events[..|events| - 1]), events[|events| - 1])
  }

  lemma {:induction false} RunExtends(m: Memory, cfg: Config, events: seq<Event>, later: seq<Event>)
    ensures Run(m, cfg, events + later) == RunFrom(m, Run(m, cfg, events), later)
    decreases |later|
  {
    var all := events + later;
    if later == [] {
      assert all == events;
    } else {
      assert all[..|all| - 1] == events + later[..|later| - 1];
      RunExtends(m, cfg, events, later[..|later| - 1]);
    }
  }

  lemma {:induction false} FromConcat(m: Memory, s: State, a: seq<Event>, b: seq<Event>)
    ensures RunFrom(m, s, a + b) == RunFrom(m, RunFrom(m, s, a), b)
    decreases |b|
  {
    var all := a + b;
    if b == [] {
      assert all == a;
    } else {
      assert all[..|all| - 1] == a + b[..|b| - 1];
      FromConcat(m, s, a, b[..|b| - 1]);
    }
  }

  lemma RunOne(m: Memory, s: State, e: Event)
    ensures RunFrom(m, s, [e]) == Apply(m, s, e)
  {
    assert [e][..0] == [];
    assert RunFrom(m, s, []) == s;
  }

  lemma RunTwo(m: Memory, s: State, a: Event, b: Event)
    ensures RunFrom(m, s, [a, b]) == Apply(m, Apply(m, s, a), b)
  {
    RunOne(m, s, a);
    assert [a, b][..1] == [a];
  }

  /** One action of one call: what it does to the stores, its own program counter and the others'. */
  lemma ActStep(m: Memory, s: State, call: CallId, a: Action) returns (s': State)
    ensures s' == Apply(m, s, Do(call, a))
    ensures (s'.db, PcOf(s', call)) == Act(m, s.db, call, PcOf(s, call), a)
    ensures forall other | other != call :: PcOf(s', other) == PcOf(s, other)
  {
    s' := Apply(m, s, Do(call, a));
  }

  lemma ApplyVersions(m: Memory, s: State, e: Event, u: UserId)
    requires Inv(s) && u in s.db.users
    ensures u in Apply(m, s, e).db.users && s.db.users[u].version <= Apply(m, s, e).db.users[u].version
  {
    if e.Do? {
      ActGrows(m, s, e.call, e.action);
      var s' := ActStep(m, s, e.call, e.action);
    }
  }

  lemma {:induction false} VersionsGrow(m: Memory, s: State, later: seq<Event>, u: UserId)
    requires Inv(s) && u in s.db.users
    ensures var s' := RunFrom(m, s, later);
            Inv(s') && u in s'.db.users && s.db.users[u].version <= s'.db.users[u].version
    decreases |later|
  {
    if later != [] {
      VersionsGrow(m, s, later[..|later| - 1], u);
      ApplyKeeps(m, RunFrom(m, s, later[..|later| - 1]), later[|later| - 1]);
      ApplyVersions(m, RunFrom(m, s, later[..|later| - 1]), later[|later| - 1], u);
    }
  }

  // ----- theorems -----

  /** `Authenticate` accepts: the call parsed the token and now reads a row that admits it. */
  predicate Admits(s: State, call: CallId) {
    PcOf(s, call).AuthCleared? && RowAdmits(s.db, PcOf(s, call).token)
  }

  /**
   Password lineage: whenever `Authenticate` accepts a token that descends, through any number of
   rotations, from a password login or registration, the hash stored for the user at
   that moment is the one the login compared or the registration stored.
   */
  lemma PasswordLineage(m: Memory, cfg: Config, events: seq<Event>, call: CallId)
    ensures var s := Run(m, cfg, events);
            Admits(s, call) ==>
              var t := PcOf(s, call).token;
              t in s.db.origin && (s.db.origin[t].hash.Some? ==> s.db.users[t.user].hash == s.db.origin[t].hash.value)
  {
    RunInv(m, cfg, events);
    OpenInv(Run(m, cfg, events).db);
    var s := Run(m, cfg, events);
    if Admits(s, call) {
      var t := PcOf(s, call).token;
      assert PcOk(s.db, call, PcOf(s, call));
      assert Recorded(s.db, t.user, t.version, s.db.origin[t].hash);
    }
  }

  /** Version invariant: no token handed out and no stored reset is ahead of its user's current version. */
  lemma NothingAheadOfUser(m: Memory, cfg: Config, events: seq<Event>)
    ensures var db := Run(m, cfg, events).db;
            && (forall t | t in db.origin :: t.user in db.users && t.version <= db.users[t.user].version)
            && (forall id | id in db.resets ::
                  db.resets[id].user in db.users && db.resets[id].version <= db.users[db.resets[id].user].version)
  {
    RunInv(m, cfg, events);
    OpenInv(Run(m, cfg, events).db);
    var db := Run(m, cfg, events).db;
    forall id | id in db.resets
      ensures db.resets[id].user in db.users && db.resets[id].version <= db.users[db.resets[id].user].version
    {
      assert NotAhead(db, db.resets[id].user, db.resets[id].version);
    }
  }

  /**
   Once a user's version has passed `t.version`, no later state lets the token through
   `Authenticate` or into a rotation; this holds for every token value, so also for tokens
   that a login or rotation in flight during the reset signs afterwards.
   */
  lemma StaleTokensRefusedForever(m: Memory, cfg: Config, events: seq<Event>, later: seq<Event>, t: Token)
    requires var db := Run(m, cfg, events).db; t.user in db.users && t.version < db.users[t.user].version
    ensures !RowAdmits(Run(m, cfg, events + later).db, t)
    ensures forall call | PcOf(Run(m, cfg, events + later), call) == RefreshParsed(t) ::
              DoRefreshRead(Run(m, cfg, events + later).db, RefreshParsed(t)) == Finished
  {
    RunInv(m, cfg, events);
    RunExtends(m, cfg, events, later);
    VersionsGrow(m, Run(m, cfg, events), later, t.user);
  }

  /** A successful reset moves its user past every version handed out before it. */
  lemma ResetPassesOldVersions(m: Memory, cfg: Config, events: seq<Event>, call: CallId, hash: Hash)
    ensures var s := Run(m, cfg, events);
            var s' := Run(m, cfg, events + [Do(call, ResetSwap(hash, true))]);
            PcOf(s', call).ResetDone? && !PcOf(s, call).ResetDone? ==>
              && s'.db.users[PcOf(s, call).user].hash == hash
              && s'.db.users[PcOf(s, call).user].version == s.db.users[PcOf(s, call).user].version + 1
              && (forall t | t in s.db.origin && t.user == PcOf(s, call).user ::
                    t.version < s'.db.users[t.user].version)
  {
    var s, e := Run(m, cfg, events), Do(call, ResetSwap(hash, true));
    RunInv(m, cfg, events);
    RunExtends(m, cfg, events, [e]);
    RunOne(m, s, e);
    var s' := ActStep(m, s, call, ResetSwap(hash, true));
    SwapPasses(s.db, PcOf(s, call), hash);
  }

  lemma SwapPasses(db: Db, pc: Pc, hash: Hash)
    requires DbInv(db)
    ensures var (db', pc') := DoResetSwap(db, pc, hash, true);
            pc'.ResetDone? && !pc.ResetDone? ==>
              && db'.users[pc.user].hash == hash && db'.users[pc.user].version == db.users[pc.user].version + 1
              && (forall t | t in db.origin && t.user == pc.user :: t.version < db'.users[t.user].version)
  {
    assert Holds(Tokens, db);
  }

  /**
   Reset compare-and-swap: over every run no two successful resets share user and version, and
   a user's version is one more than the number of its successful resets.
   */
  lemma ResetsSwapOnce(m: Memory, cfg: Config, events: seq<Event>)
    ensures var db := Run(m, cfg, events).db;
            && (forall i, j | 0 <= i < j < |db.swaps| :: db.swaps[i] != db.swaps[j])
            && (forall u | u in db.users :: db.users[u].version == 1 + SwapsOf(db.swaps, u))
  {
    RunInv(m, cfg, events);
    OpenInv(Run(m, cfg, events).db);
  }

  // ----- what lets a call on -----

  lemma IssuesAccept(m: Memory, db: Db, call: CallId, pc: Pc, a: Action)
    requires a.RegisterCreate? || a.Sign? || a.RefreshSign?
    ensures Act(m, db, call, pc, a).0.accepted == db.accepted
  {
  }

  lemma WritesAccept(m: Memory, db: Db, call: CallId, pc: Pc, a: Action)
    requires a.Consume? || a.LogoutWrite? || a.ResetStore? || a.ResetSwap? || a.ResetClean?
    ensures Act(m, db, call, pc, a).0.accepted == db.accepted
  {
  }

  lemma ActAccepts(m: Memory, db: Db, call: CallId, pc: Pc, a: Action)
    requires !a.AuthReadUser?
    ensures Act(m, db, call, pc, a).0.accepted == db.accepted
  {
    if a.RegisterCreate? || a.Sign? || a.RefreshSign? {
      IssuesAccept(m, db, call, pc, a);
    } else if a.Consume? || a.LogoutWrite? || a.ResetStore? || a.ResetSwap? || a.ResetClean? {
      WritesAccept(m, db, call, pc, a);
    }
  }

  /**
   What `Authenticate` accepts, in every step of every run: a token that was handed out as an access
   token, got past the blacklist, and whose user at that moment exists, is enabled and has
   the token's version; and it accepts every such token that reaches its row read.
   */
  lemma AcceptsExactly(m: Memory, cfg: Config, events: seq<Event>, call: CallId, a: Action)
    ensures var s, s' := Run(m, cfg, events), Run(m, cfg, events + [Do(call, a)]);
            var accepts := && a.AuthReadUser? && PcOf(s, call).AuthCleared?
                           && PcOf(s, call).token.user in s.db.users
                           && s.db.users[PcOf(s, call).token.user].active
                           && s.db.users[PcOf(s, call).token.user].version == PcOf(s, call).token.version;
            && (accepts ==> PcOf(s, call).token in s.db.origin && PcOf(s, call).token.kind == Access)
            && s'.db.accepted == s.db.accepted + if accepts then [PcOf(s, call).token] else []
  {
    var s := Run(m, cfg, events);
    RunInv(m, cfg, events);
    assert PcOk(s.db, call, PcOf(s, call));
    RunExtends(m, cfg, events, [Do(call, a)]);
    RunOne(m, s, Do(call, a));
    var s' := ActStep(m, s, call, a);
    assert s.db.accepted + [] == s.db.accepted;
    if !a.AuthReadUser? {
      ActAccepts(m, s.db, call, PcOf(s, call), a);
    }
  }

  /** What the blacklist lookup and the reads by token, phone or reset id ask for, field by field. */
  lemma ReadsDecide(db: Db, t: Token, phone: string, passwordOk: bool, id: ResetId)
    ensures DoAuthParse(db, Idle, t) ==
            if t in db.origin && t.kind == Access && db.now < t.exp then AuthParsed(t) else Finished
    ensures DoAuthLookup(Forgetful, db, AuthParsed(t)) ==
            if t in db.blacklist && db.now <= db.blacklist[t] then Finished else AuthCleared(t, t in db.blacklist)
    ensures DoRefreshParse(db, Idle, t) ==
            if t in db.origin && t.kind == Refresh && db.now < t.exp then RefreshParsed(t) else Finished
    ensures DoRefreshRead(db, RefreshParsed(t)) ==
            if t.user in db.users && db.users[t.user].version == t.version && db.users[t.user].active
            then RefreshAllowed(t) else Finished
    ensures phone in db.phones && db.phones[phone] in db.users ==>
              var u, row := db.phones[phone], db.users[db.phones[phone]];
              && DoLoginRead(db, Idle, phone, passwordOk) ==
                 (if passwordOk && row.active then Signing(u, row.version, Some(row.hash)) else Finished)
              && DoSmsLoginRead(db, Idle, phone) == (if row.active then Signing(u, row.version, None) else Finished)
              && DoResetVerify(db, Idle, phone) == ResetVerified(u, row.version)
    ensures phone !in db.phones ==>
              && DoLoginRead(db, Idle, phone, passwordOk) == Finished
              && DoSmsLoginRead(db, Idle, phone) == Finished && DoResetVerify(db, Idle, phone) == Finished
    ensures DoResetLoad(db, Idle, id) ==
            if id in db.resets && db.now <= db.resets[id].deadline
            then ResetLoaded(id, db.resets[id].user, db.resets[id].version) else Finished
  {
  }

  /** A stored reset can be used for ten minutes, and not after it was cleaned up. */
  lemma ResetLivesTenMinutes(db: Db, user: UserId, version: nat, id: ResetId, ms: nat)
    requires id !in db.resets
    ensures var stored := DoResetStore(db, ResetVerified(user, version), id, true).0;
            && DoResetLoad(stored.(now := db.now + ms), Idle, id) ==
               (if ms <= 600000 then ResetLoaded(id, user, version) else Finished)
            && DoResetLoad(DoResetClean(stored, ResetDone(id), true).0, Idle, id) == Finished
  {
  }

  /** What is signed: the user and version asked for, each kind with its own life, in whole seconds. */
  lemma SignedPair(db: Db, user: UserId, version: nat, ja: Jti, jr: Jti)
    ensures var a, r := NewAccess(db, user, version, ja), NewRefresh(db, user, version, jr);
            && a.kind == Access && a.user == user && a.version == version && a.jti == ja
            && r.kind == Refresh && r.user == user && r.version == version && r.jti == jr
            && a.exp % 1000 == 0 && db.now + db.cfg.accessMs - 1000 < a.exp <= db.now + db.cfg.accessMs
            && r.exp % 1000 == 0 && db.now + db.cfg.refreshMs - 1000 < r.exp <= db.now + db.cfg.refreshMs
  {
  }

  // ----- disabled accounts -----

  predicate Disabled(db: Db, u: UserId) {
    u in db.users && !db.users[u].active
  }

  lemma ActKeepsDisabled(m: Memory, db: Db, call: CallId, pc: Pc, a: Action, u: UserId)
    requires Disabled(db, u)
    ensures Disabled(Act(m, db, call, pc, a).0, u)
  {
    if a.RegisterCreate? || a.Sign? || a.RefreshSign? {
    } else if a.Consume? || a.LogoutWrite? {
    } else if a.ResetStore? || a.ResetSwap? || a.ResetClean? {
    }
  }

  /** Nothing after the first `n` accepted tokens belongs to the user. */
  ghost predicate NoneSince(accepted: seq<Token>, n: nat, u: UserId) {
    n <= |accepted| && forall i | n <= i < |accepted| :: accepted[i].user != u
  }

  lemma StepDisabled(m: Memory, s: State, e: Event, u: UserId, n: nat)
    requires Disabled(s.db, u) && NoneSince(s.db.accepted, n, u) && e != SetActive(u, true)
    ensures Disabled(Apply(m, s, e).db, u) && NoneSince(Apply(m, s, e).db.accepted, n, u)
  {
    if e.Do? {
      ActKeepsDisabled(m, s.db, e.call, PcOf(s, e.call), e.action, u);
      var s' := ActStep(m, s, e.call, e.action);
      if !e.action.AuthReadUser? {
        ActAccepts(m, s.db, e.call, PcOf(s, e.call), e.action);
      }
    }
  }

  lemma {:induction false} DisabledRun(m: Memory, s: State, later: seq<Event>, u: UserId)
    requires Disabled(s.db, u) && SetActive(u, true) !in later
    ensures Disabled(RunFrom(m, s, later).db, u)
    ensures NoneSince(RunFrom(m, s, later).db.accepted, |s.db.accepted|, u)
    decreases |later|
  {
    if later != [] {
      assert later[|later| - 1] in later;
      DisabledRun(m, s, later[..|later| - 1], u);
      StepDisabled(m, RunFrom(m, s, later[..|later| - 1]), later[|later| - 1], u, |s.db.accepted|);
    }
  }

  /** No token of the user is let on into a rotation, and neither login lets the user in. */
  ghost predicate KeepsOut(db: Db, u: UserId) {
    && (forall t: Token | t.user == u :: DoRefreshRead(db, RefreshParsed(t)) == Finished)
    && (forall phone, ok | phone in db.phones && db.phones[phone] == u :: DoLoginRead(db, Idle, phone, ok) == Finished)
    && (forall phone | phone in db.phones && db.phones[phone] == u :: DoSmsLoginRead(db, Idle, phone) == Finished)
  }

  lemma DisabledKeepsOut(db: Db, u: UserId)
    requires Disabled(db, u)
    ensures KeepsOut(db, u)
  {
  }

  /**
   A disabled account: from any reachable state with the user disabled, until it is enabled again, no
   token of the user is accepted, none is let on into a rotation, and neither login lets
   the user in.
   */
  lemma DisabledIsRefused(m: Memory, cfg: Config, events: seq<Event>, later: seq<Event>, u: UserId)
    requires var db := Run(m, cfg, events).db; u in db.users && !db.users[u].active
    requires SetActive(u, true) !in later
    ensures var db := Run(m, cfg, events + later).db;
            && u in db.users && !db.users[u].active && KeepsOut(db, u)
            && NoneSince(db.accepted, |Run(m, cfg, events).db.accepted|, u)
  {
    RunExtends(m, cfg, events, later);
    DisabledRun(m, Run(m, cfg, events), later, u);
    DisabledKeepsOut(RunFrom(m, Run(m, cfg, events), later).db, u);
  }
}
