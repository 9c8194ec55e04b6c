/**
 Sessions, their users and the Redis cache, one request at a time (src/session.rs,
 src/session_check.rs, src/user.rs). Every database or Redis round trip may fail.
 */
module Sessions {
  import opened Wrappers
  import opened Roles
  import opened Tokens

  // --- Errors --------------------------------------------------------------

  datatype Error =
    | SessionNotFound | SessionExpired
    | RowNotFound | Database | Undecodable
    | Unset | Redis | InvalidDuration
    | MissingRefreshToken | InvalidRefreshToken

  predicate IsSessionMissing(e: Error) {
    e.SessionNotFound? || e.RowNotFound?
  }

  /** The classes the callers tell apart. */
  datatype ErrorClass = Missing | Expired | Otherwise

  function Class(e: Error): ErrorClass {
    if IsSessionMissing(e) then Missing else if e.SessionExpired? then Expired else Otherwise
  }

  // --- Stored state --------------------------------------------------------

  datatype SessionRow = SessionRow(userId: string, expiresAt: Option<int>, isDeleted: bool)

  /** A roles column: NULL, a JSON array, or something else. */
  datatype RolesColumn = Null | Items(roles: RoleList) | Unsupported

  function Scan(column: RolesColumn): Result<RoleList, Error> {
    match column
    case Null => Success([])
    case Items(roles) => Success(roles)
    case Unsupported => Failure(Undecodable)
  }

  datatype SessionData = SessionData(id: string, userId: string, roles: RoleList)

  /** A cached value and the time its key expires. */
  datatype CacheEntry = CacheEntry(data: SessionData, until: int)

  type Cache = map<string, CacheEntry>

  datatype Store = Store(
    sessions: map<string, SessionRow>, users: map<string, RolesColumn>, cache: Cache, now: nat)

  datatype User = User(id: string, roles: RoleList)

  /** A loaded session. A cached one does not carry the row's expiry. */
  datatype Session = Session(id: string, userId: string, user: User, expiresAt: Option<int>)

  /**
   `bindSession` and `bindUser` are what the database makes of an identifier sent as a parameter for the key
   column of the one table or the other: the canonical text of the key it denotes, or nothing when the
   column's type refuses it.
   */
  datatype Config = Config(
    bindSession: string -> Option<string>, bindUser: string -> Option<string>, redis: bool, prefix: string, ttlSeconds: nat, lifetimes: Lifetimes)

  /** Canonical text denotes itself. */
  ghost predicate Canonical(cfg: Config) {
    && (forall s: string :: cfg.bindSession(s).Some? ==> cfg.bindSession(cfg.bindSession(s).value) == cfg.bindSession(s))
    && (forall s: string :: cfg.bindUser(s).Some? ==> cfg.bindUser(cfg.bindUser(s).value) == cfg.bindUser(s))
  }

  /** Which of a request's round trips fail. */
  datatype Faults = Faults(
    redisGet: bool, active: bool, roles: bool, row: bool, user: bool, redisSet: bool)

  const NO_FAULTS := Faults(false, false, false, false, false, false)

  // --- Redis ---------------------------------------------------------------

  function BuildRedisKey(prefix: string, sessionId: string): string {
    (if prefix == "" then "AUTHSESSIONS" else prefix) + ":" + sessionId
  }

  lemma RedisKeyInjective(prefix: string, a: string, b: string)
    ensures BuildRedisKey(prefix, a) == BuildRedisKey(prefix, b) <==> a == b
    ensures BuildRedisKey("", a) == "AUTHSESSIONS:" + a
    ensures prefix != "" ==> BuildRedisKey(prefix, a) == prefix + ":" + a
  {
    var p := (if prefix == "" then "AUTHSESSIONS" else prefix) + ":";
    assert (p + a)[|p|..] == a;
    assert (p + b)[|p|..] == b;
  }

  predicate ValidSessionData(d: SessionData) {
    d.id != "" && d.userId != ""
  }

  function GetSessionFromRedis(cfg: Config, cache: Cache, now: nat, sessionId: string, fail: bool): Result<SessionData, Error> {
    if sessionId == "" then Failure(Unset)
    else if !cfg.redis || fail then Failure(Redis)
    else
      var key := BuildRedisKey(cfg.prefix, sessionId);
      if key !in cache || cache[key].until <= now then Failure(SessionNotFound)
      else if !ValidSessionData(cache[key].data) then Failure(Unset)
      else Success(cache[key].data)
  }

  /** The cache after an attempt to store `d`; the callers ignore whether it worked. */
  function SetSessionToRedis(cfg: Config, cache: Cache, now: nat, d: SessionData, fail: bool): Cache {
    if !ValidSessionData(d) || !cfg.redis || fail then cache
    else
      var ttl := if cfg.ttlSeconds == 0 then 1 else cfg.ttlSeconds;
      cache[BuildRedisKey(cfg.prefix, d.id) := CacheEntry(d, now + ttl * SECOND)]
  }

  // --- The tables ----------------------------------------------------------

  /** The row under an identifier and its key, unless it is marked deleted. */
  function FetchSession(cfg: Config, s: Store, sessionId: string, fail: bool): Result<(string, SessionRow), Error> {
    if fail then Failure(Database)
    else
      match cfg.bindSession(sessionId)
      case None => Failure(Database)
      case Some(key) =>
        if key in s.sessions && !s.sessions[key].isDeleted then Success((key, s.sessions[key]))
        else Failure(RowNotFound)
  }

  function SessionUsable(row: SessionRow, now: nat): Option<Error> {
    if row.isDeleted then Some(SessionNotFound)
    else if row.expiresAt.Some? && now > row.expiresAt.value then Some(SessionExpired)
    else None
  }

  function EnsureSessionActive(cfg: Config, s: Store, sessionId: string, fail: bool): Option<Error> {
    match FetchSession(cfg, s, sessionId, fail)
    case Failure(RowNotFound) => Some(SessionNotFound)
    case Failure(e) => Some(e)
    case Success((_, row)) => SessionUsable(row, s.now)
  }

  function FetchUser(cfg: Config, s: Store, userId: string, fail: bool): Result<User, Error> {
    if fail then Failure(Database)
    else
      match cfg.bindUser(userId)
      case None => Failure(Database)
      case Some(key) =>
        if key !in s.users then Failure(RowNotFound)
        else match Scan(s.users[key])
          case Failure(e) => Failure(e)
          case Success(roles) => Success(User(key, roles))
  }

  function GetUserRolesFromDb(cfg: Config, s: Store, userId: string, fail: bool): Result<RoleList, Error> {
    if userId == "" then Failure(Unset)
    else match FetchUser(cfg, s, userId, fail)
      case Failure(e) => Failure(e)
      case Success(user) => Success(user.roles)
  }

  // --- get_session ---------------------------------------------------------

  datatype Loaded = Loaded(result: Result<Session, Error>, cache: Cache)

  function LoadFromCache(cfg: Config, s: Store, sessionId: string, cached: SessionData, f: Faults): Loaded {
    var inactive := EnsureSessionActive(cfg, s, sessionId, f.active);
    if inactive.Some? then Loaded(Failure(inactive.value), s.cache)
    else
      var current := GetUserRolesFromDb(cfg, s, cached.userId, f.roles);
      var renew := current.Success? && current.value != [];
      var data := if renew then cached.(roles := current.value) else cached;
      Loaded(Success(Session(data.id, data.userId, User(data.userId, data.roles), None)),
             if renew then SetSessionToRedis(cfg, s.cache, s.now, data, f.redisSet) else s.cache)
  }

  function LoadFromTables(cfg: Config, s: Store, sessionId: string, f: Faults): Loaded {
    match FetchSession(cfg, s, sessionId, f.row)
    case Failure(e) => Loaded(Failure(e), s.cache)
    case Success((key, row)) =>
      var dead := SessionUsable(row, s.now);
      if dead.Some? then Loaded(Failure(dead.value), s.cache)
      else
        match FetchUser(cfg, s, row.userId, f.user)
        case Failure(e) => Loaded(Failure(e), s.cache)
        case Success(user) =>
          Loaded(Success(Session(key, row.userId, user, row.expiresAt)),
                 SetSessionToRedis(cfg, s.cache, s.now, SessionData(key, row.userId, user.roles), f.redisSet))
  }

  function GetSession(cfg: Config, s: Store, sessionId: string, f: Faults): Loaded {
    if sessionId == "" then Loaded(Failure(Unset), s.cache)
    else
      var cached := GetSessionFromRedis(cfg, s.cache, s.now, sessionId, f.redisGet);
      if cached.Success? then LoadFromCache(cfg, s, sessionId, cached.value, f)
      else LoadFromTables(cfg, s, sessionId, f)
  }

  // --- What every reachable store satisfies ----------------------------------

  /** The foreign key of the sessions table. */
  predicate TablesOk(cfg: Config, s: Store) {
    && (forall k | k in s.sessions ::
          && k != "" && cfg.bindSession(k) == Some(k)
          && (s.sessions[k].userId != "" ==> s.sessions[k].userId in s.users))
    && (forall u | u in s.users :: cfg.bindUser(u) == Some(u))
  }

  /** What the cache may say about a session: never another session, never another user. */
  predicate DataOk(cfg: Config, s: Store, d: SessionData) {
    && ValidSessionData(d)
    && cfg.bindSession(d.id) == Some(d.id) && cfg.bindUser(d.userId) == Some(d.userId)
    && (d.id in s.sessions ==> s.sessions[d.id].userId == d.userId)
  }

  predicate CacheOk(cfg: Config, s: Store) {
    forall key | key in s.cache ::
      key == BuildRedisKey(cfg.prefix, s.cache[key].data.id) && DataOk(cfg, s, s.cache[key].data)
  }

  predicate StoreOk(cfg: Config, s: Store) {
    TablesOk(cfg, s) && CacheOk(cfg, s)
  }

  /** May the session with this key authenticate a request right now? */
  predicate Live(s: Store, key: string) {
    && key in s.sessions
    && !s.sessions[key].isDeleted
    && (s.sessions[key].expiresAt.Some? ==> s.now <= s.sessions[key].expiresAt.value)
  }

  lemma CachedIsOwn(cfg: Config, s: Store, sessionId: string, fail: bool)
    requires CacheOk(cfg, s)
    ensures var cached := GetSessionFromRedis(cfg, s.cache, s.now, sessionId, fail);
            cached.Success? ==> cached.value.id == sessionId && DataOk(cfg, s, cached.value)
  {
    var cached := GetSessionFromRedis(cfg, s.cache, s.now, sessionId, fail);
    if cached.Success? {
      RedisKeyInjective(cfg.prefix, sessionId, cached.value.id);
    }
  }

  /**
   Whatever Redis holds, under any key and from whatever writer, and whichever round trips fail: a session
   loads only when the one asked for is live.
   */
  lemma LoadedIsLive(cfg: Config, s: Store, sessionId: string, f: Faults)
    requires GetSession(cfg, s, sessionId, f).result.Success?
    ensures cfg.bindSession(sessionId).Some? && Live(s, cfg.bindSession(sessionId).value)
  {
  }

  /** What Redis answers about this session, if anything, names the row and the row's user. */
  predicate OwnEntry(cfg: Config, s: Store, sessionId: string, fail: bool) {
    var cached := GetSessionFromRedis(cfg, s.cache, s.now, sessionId, fail);
    cached.Success? ==>
      && cfg.bindSession(sessionId) == Some(cached.value.id)
      && cached.value.id in s.sessions && s.sessions[cached.value.id].userId == cached.value.userId
  }

  /**
   A session that loads is the one asked for and belongs to its row's user exactly when the cache entry used,
   if one was used, says so: `get_session` does not compare it with the row. What the crate itself writes to
   Redis always does.
   */
  lemma LoadedIsOwn(cfg: Config, s: Store, sessionId: string, f: Faults)
    requires GetSession(cfg, s, sessionId, f).result.Success?
    ensures var loaded, key := GetSession(cfg, s, sessionId, f).result.value, cfg.bindSession(sessionId).value;
            loaded.id == key && loaded.userId == s.sessions[key].userId <==> OwnEntry(cfg, s, sessionId, f.redisGet)
    ensures CacheOk(cfg, s) ==> OwnEntry(cfg, s, sessionId, f.redisGet)
  {
    LoadedIsLive(cfg, s, sessionId, f);
    if CacheOk(cfg, s) {
      CachedIsOwn(cfg, s, sessionId, f.redisGet);
    }
  }

  /**
   A dead session fails with the class of its death, unless a round trip fails first; again whatever Redis
   holds.
   */
  lemma DeadFails(cfg: Config, s: Store, sessionId: string, f: Faults)
    requires cfg.bindSession(sessionId).Some? && !Live(s, cfg.bindSession(sessionId).value)
    ensures var r := GetSession(cfg, s, sessionId, f).result;
            && r.Failure?
            && (sessionId != "" && !f.active && !f.row ==>
                  var key := cfg.bindSession(sessionId).value;
                  Class(r.error) == if key in s.sessions && !s.sessions[key].isDeleted then Expired else Missing)
  {
    if GetSession(cfg, s, sessionId, f).result.Success? {
      LoadedIsLive(cfg, s, sessionId, f);
    }
  }

  /** What a load writes to Redis is in order, if what it found was. */
  lemma LoadKeepsStore(cfg: Config, s: Store, sessionId: string, f: Faults)
    requires StoreOk(cfg, s) && Canonical(cfg)
    ensures StoreOk(cfg, s.(cache := GetSession(cfg, s, sessionId, f).cache))
  {
    CachedIsOwn(cfg, s, sessionId, f.redisGet);
  }

  /** What the users table answers for a roles column. */
  lemma ScanColumn(column: RolesColumn)
    ensures match column
            case Null => Scan(column) == Success([])
            case Items(roles) => Scan(column) == Success(roles)
            case Unsupported => Scan(column).Failure? && Class(Scan(column).error) == Otherwise
  {
  }

  /** The stored roles of a user, when they can be read. */
  predicate Stores(cfg: Config, s: Store, userId: string, roles: RoleList) {
    && cfg.bindUser(userId).Some? && cfg.bindUser(userId).value in s.users
    && match s.users[cfg.bindUser(userId).value]
       case Null => roles == []
       case Items(stored) => roles == stored
       case Unsupported => false
  }

  /**
   The roles of a loaded session: on a miss those stored for the row's user; on a hit those stored for the entry's
   user, if they can be read and there are any, and else those of the entry.
   */
  lemma LoadedRoles(cfg: Config, s: Store, sessionId: string, f: Faults)
    requires GetSession(cfg, s, sessionId, f).result.Success?
    ensures var loaded, cached := GetSession(cfg, s, sessionId, f).result.value, GetSessionFromRedis(cfg, s.cache, s.now, sessionId, f.redisGet);
            && (cached.Failure? ==>
                  && cfg.bindSession(sessionId).Some? && cfg.bindSession(sessionId).value in s.sessions
                  && Stores(cfg, s, s.sessions[cfg.bindSession(sessionId).value].userId, loaded.user.roles))
            && (cached.Success? ==>
                  if !f.roles && exists roles :: Stores(cfg, s, cached.value.userId, roles) && roles != []
                  then Stores(cfg, s, cached.value.userId, loaded.user.roles)
                  else loaded.user.roles == cached.value.roles)
  {
    LoadedIsLive(cfg, s, sessionId, f);
    var cached := GetSessionFromRedis(cfg, s.cache, s.now, sessionId, f.redisGet);
    if cached.Success? {
      StoredRead(cfg, s, cached.value.userId, f.roles);
    }
  }

  lemma StoredRead(cfg: Config, s: Store, userId: string, fail: bool)
    requires userId != ""
    ensures forall roles :: GetUserRolesFromDb(cfg, s, userId, fail) == Success(roles) <==> !fail && Stores(cfg, s, userId, roles)
  {
  }

  /** Without failing round trips a session loads exactly if it is live and either cached or its user is readable. */
  lemma LiveLoads(cfg: Config, s: Store, sessionId: string)
    ensures GetSession(cfg, s, sessionId, NO_FAULTS).result.Success? <==>
            && sessionId != ""
            && cfg.bindSession(sessionId).Some? && Live(s, cfg.bindSession(sessionId).value)
            && (|| GetSessionFromRedis(cfg, s.cache, s.now, sessionId, false).Success?
                || exists roles :: Stores(cfg, s, s.sessions[cfg.bindSession(sessionId).value].userId, roles))
  {
    if cfg.bindSession(sessionId).Some? && Live(s, cfg.bindSession(sessionId).value) {
      UserReads(cfg, s, s.sessions[cfg.bindSession(sessionId).value].userId);
    }
  }

  lemma UserReads(cfg: Config, s: Store, userId: string)
    ensures FetchUser(cfg, s, userId, false).Success? <==> exists roles :: Stores(cfg, s, userId, roles)
  {
    if FetchUser(cfg, s, userId, false).Success? {
      assert Stores(cfg, s, userId, FetchUser(cfg, s, userId, false).value.roles);
    }
  }

  // --- The cache is transparent --------------------------------------------

  predicate SameAnswer(a: Result<Session, Error>, b: Result<Session, Error>) {
    match (a, b)
    case (Success(x), Success(y)) => x.id == y.id && x.userId == y.userId && x.user == y.user
    case (Failure(x), Failure(y)) => Class(x) == Class(y)
    case _ => false
  }

  /** The roles of a cached session that the tables would answer differently. */
  predicate StaleRoles(cfg: Config, s: Store, sessionId: string) {
    var cached := GetSessionFromRedis(cfg, s.cache, s.now, sessionId, false);
    && cached.Success?
    && cfg.bindSession(sessionId).Some? && Live(s, cfg.bindSession(sessionId).value)
    && cached.value.userId in s.users
    && match Scan(s.users[cached.value.userId])
       case Failure(_) => true
       case Success(current) => current == [] && cached.value.roles != []
  }

  /** A live session whose cache entry names another session or another user. */
  predicate ForeignEntry(cfg: Config, s: Store, sessionId: string) {
    && cfg.bindSession(sessionId).Some? && Live(s, cfg.bindSession(sessionId).value)
    && !OwnEntry(cfg, s, sessionId, false)
  }

  /**
   With and without Redis a request gets the same answer, whatever Redis holds, except in two cases: the
   session is live, cached with some roles, and its user's roles are unreadable now or have become empty; or
   the session is live and its entry is not its own, which only another writer can bring about.
   */
  lemma CacheTransparent(cfg: Config, s: Store, sessionId: string)
    requires cfg.redis && TablesOk(cfg, s)
    ensures SameAnswer(GetSession(cfg, s, sessionId, NO_FAULTS).result,
                       GetSession(cfg.(redis := false), s, sessionId, NO_FAULTS).result)
            <==> !StaleRoles(cfg, s, sessionId) && !ForeignEntry(cfg, s, sessionId)
    ensures CacheOk(cfg, s) ==> !ForeignEntry(cfg, s, sessionId)
  {
    hide CacheOk, LoadFromCache, LoadFromTables;
    TablesDoNotNeedRedis(cfg, s, sessionId, NO_FAULTS);
    if CacheOk(cfg, s) && cfg.bindSession(sessionId).Some? && Live(s, cfg.bindSession(sessionId).value) {
      OwnIfOk(cfg, s, sessionId, false);
    }
    var cached := GetSessionFromRedis(cfg, s.cache, s.now, sessionId, false);
    if cached.Success? {
      HitTransparent(cfg, s, sessionId, cached.value);
    }
  }

  lemma TablesDoNotNeedRedis(cfg: Config, s: Store, sessionId: string, f: Faults)
    ensures LoadFromTables(cfg.(redis := false), s, sessionId, f).result == LoadFromTables(cfg, s, sessionId, f).result
  {
  }

  lemma OwnIfOk(cfg: Config, s: Store, sessionId: string, fail: bool)
    requires CacheOk(cfg, s) && cfg.bindSession(sessionId).Some? && cfg.bindSession(sessionId).value in s.sessions
    ensures OwnEntry(cfg, s, sessionId, fail)
  {
    CachedIsOwn(cfg, s, sessionId, fail);
  }

  lemma HitTransparent(cfg: Config, s: Store, sessionId: string, cached: SessionData)
    requires TablesOk(cfg, s) && ValidSessionData(cached)
    ensures SameAnswer(LoadFromCache(cfg, s, sessionId, cached, NO_FAULTS).result,
                       LoadFromTables(cfg, s, sessionId, NO_FAULTS).result)
            <==>
            (cfg.bindSession(sessionId).Some? && Live(s, cfg.bindSession(sessionId).value) ==>
               var row := s.sessions[cfg.bindSession(sessionId).value];
               && cached.id == cfg.bindSession(sessionId).value && cached.userId == row.userId
               && Scan(s.users[row.userId]).Success?
               && (Scan(s.users[row.userId]).value == [] ==> cached.roles == []))
  {
  }

  /** In particular for every live session whose user has readable, non-empty roles, and whose entry is its own. */
  lemma CacheTransparentForUsersWithRoles(cfg: Config, s: Store, sessionId: string, roles: RoleList)
    requires cfg.redis && StoreOk(cfg, s)
    requires cfg.bindSession(sessionId).Some? && cfg.bindSession(sessionId).value in s.sessions
    requires var u := s.sessions[cfg.bindSession(sessionId).value].userId;
             u in s.users && Scan(s.users[u]) == Success(roles) && roles != []
    ensures SameAnswer(GetSession(cfg, s, sessionId, NO_FAULTS).result,
                       GetSession(cfg.(redis := false), s, sessionId, NO_FAULTS).result)
  {
    hide GetSession, SameAnswer;
    CacheTransparent(cfg, s, sessionId);
    OwnIfOk(cfg, s, sessionId, false);
  }

  // --- Signing in ----------------------------------------------------------

  /** The row of a new session; an unknown user breaks the foreign key. */
  function NewRow(cfg: Config, s: Store, userId: string, sessionId: string, fail: bool): Result<SessionRow, Error> {
    var d := RefreshDuration(cfg.lifetimes);
    if d.Failure? then Failure(InvalidDuration)
    else if fail || sessionId in s.sessions then Failure(Database)
    else
      var expiresAt := Some(After(s.now, d.value));
      if userId == "" then Success(SessionRow("", expiresAt, false))
      else
        match cfg.bindUser(userId)
        case None => Failure(Database)
        case Some(key) =>
          if key in s.users then Success(SessionRow(key, expiresAt, false)) else Failure(Database)
  }

  /** The stored roles replace the ones passed in, if they can be read. */
  function WithStoredRoles(cfg: Config, s: Store, o: AuthorizeOptions, fail: bool): AuthorizeOptions {
    var stored := GetUserRolesFromDb(cfg, s, o.userId, fail);
    if stored.Success? then o.(roles := stored.value) else o
  }

  datatype Authorized = Authorized(result: Result<TokenPair, Error>, sessions: map<string, SessionRow>)

  /** `sessionId` is the random identifier of the new row; the tokens are signed `lag` later. */
  function Authorize(
    cfg: Config, s: Store, o: AuthorizeOptions, sessionId: string, lag: nat, rolesFault: bool, insertFault: bool): Authorized
  {
    var options := WithStoredRoles(cfg, s, o, rolesFault);
    match NewRow(cfg, s, options.userId, sessionId, insertFault)
    case Failure(e) => Authorized(Failure(e), s.sessions)
    case Success(row) =>
      var pair := SignTokenPair(cfg.lifetimes, options, sessionId, s.now + lag);
      Authorized(if pair.None? then Failure(InvalidDuration) else Success(pair.value), s.sessions[sessionId := row])
  }

  /**
   A sign-in in full: the row it leaves, with its user and its deadline, and nothing else changed; when it
   succeeds; and the claims of both tokens, with the stored roles where they can be read and the given ones where not.
   */
  lemma AuthorizeInFull(
    cfg: Config, s: Store, o: AuthorizeOptions, sessionId: string, lag: nat, rolesFault: bool, insertFault: bool)
    ensures var a := Authorize(cfg, s, o, sessionId, lag, rolesFault, insertFault);
            var access, refresh := AccessDuration(cfg.lifetimes), RefreshDuration(cfg.lifetimes);
            var known := o.userId != "" ==> cfg.bindUser(o.userId).Some? && cfg.bindUser(o.userId).value in s.users;
            var inserted := refresh.Success? && !insertFault && sessionId !in s.sessions && known;
            && a.sessions ==
               (if inserted then
                  s.sessions[sessionId :=
                    SessionRow(if o.userId == "" then "" else cfg.bindUser(o.userId).value,
                               Some(s.now + refresh.value.secs * SECOND), false)]
                else s.sessions)
            && (a.result.Success? <==> inserted && access.Success? && sessionId != "")
  {
  }

  lemma AuthorizeClaims(
    cfg: Config, s: Store, o: AuthorizeOptions, sessionId: string, lag: nat, rolesFault: bool, insertFault: bool)
    requires Authorize(cfg, s, o, sessionId, lag, rolesFault, insertFault).result.Success?
    ensures AccessDuration(cfg.lifetimes).Success? && RefreshDuration(cfg.lifetimes).Success?
    ensures var pair := Authorize(cfg, s, o, sessionId, lag, rolesFault, insertFault).result.value;
            var signed := (s.now + lag) / SECOND;
            && pair.access.userId == pair.refresh.userId == o.userId
            && pair.access.content == pair.refresh.content == o.content
            && pair.access.roles == pair.refresh.roles
            && (if o.userId != "" && !rolesFault && exists roles :: Stores(cfg, s, o.userId, roles)
                then Stores(cfg, s, o.userId, pair.access.roles)
                else pair.access.roles == o.roles)
            && pair.access.iat == pair.refresh.iat == signed
            && pair.access.exp == signed + AccessDuration(cfg.lifetimes).value.secs
            && pair.refresh.exp == signed + RefreshDuration(cfg.lifetimes).value.secs
            && pair.refresh.sessionId == sessionId && pair.refresh.signingMethod == cfg.lifetimes.signingMethod
  {
    TimestampAfter(s.now + lag, AccessDuration(cfg.lifetimes).value);
    TimestampAfter(s.now + lag, RefreshDuration(cfg.lifetimes).value);
    if o.userId != "" {
      StoredRead(cfg, s, o.userId, rolesFault);
    }
  }

  /** An identifier that no stored or cached session uses. */
  predicate Unused(cfg: Config, s: Store, sessionId: string) {
    && sessionId != "" && cfg.bindSession(sessionId) == Some(sessionId)
    && sessionId !in s.sessions
    && BuildRedisKey(cfg.prefix, sessionId) !in s.cache
  }

  lemma AuthorizeKeepsStore(
    cfg: Config, s: Store, o: AuthorizeOptions, sessionId: string, lag: nat, rolesFault: bool, insertFault: bool)
    requires StoreOk(cfg, s) && Unused(cfg, s, sessionId)
    ensures StoreOk(cfg, s.(sessions := Authorize(cfg, s, o, sessionId, lag, rolesFault, insertFault).sessions))
  {
  }

  /**
   A sign-in is complete: the returned identifier loads, for the user who signed in, with that user's
   stored roles, and the returned refresh token buys an access token, at any moment `t` until the row
   expires. With `check_session` this needs the user identifier to have been given in canonical form.
   */
  lemma AuthorizeThenUse(
    cfg: Config, s: Store, o: AuthorizeOptions, sessionId: string, lag: nat, insertFault: bool, t: nat)
    requires Canonical(cfg) && StoreOk(cfg, s) && Unused(cfg, s, sessionId)
    requires var a := Authorize(cfg, s, o, sessionId, lag, false, insertFault); a.result.Success?
    requires o.userId != "" && GetUserRolesFromDb(cfg, s, o.userId, false).Success?
    requires s.now + lag <= t <= After(s.now, RefreshDuration(cfg.lifetimes).value)
    ensures var a := Authorize(cfg, s, o, sessionId, lag, false, insertFault);
            var later := s.(sessions := a.sessions, now := t);
            var roles := GetUserRolesFromDb(cfg, s, o.userId, false).value;
            var user := User(cfg.bindUser(o.userId).value, roles);
            var token := Some(Token.Refresh(a.result.value.refresh));
            && (var r := GetSession(cfg, later, sessionId, NO_FAULTS).result;
                r.Success? && r.value.id == sessionId && r.value.userId == user.id && r.value.user == user)
            && (var reply := RefreshResponse(cfg, later, token, NO_FAULTS).reply;
                reply.Ok? && reply.access.userId == o.userId && reply.access.roles == roles)
            && (CheckSession(cfg, later, token, false, NO_FAULTS).result.Success? <==> cfg.bindUser(o.userId) == Some(o.userId))
  {
    var a := Authorize(cfg, s, o, sessionId, lag, false, insertFault);
    var later := s.(sessions := a.sessions, now := t);
    AuthorizeKeepsStore(cfg, s, o, sessionId, lag, false, insertFault);
    assert CacheOk(cfg, later);
    TimestampAfter(s.now + lag, RefreshDuration(cfg.lifetimes).value);
    TimestampMonotone(t, After(s.now + lag, RefreshDuration(cfg.lifetimes).value));
    RefreshPathsCompared(cfg, later, Some(Token.Refresh(a.result.value.refresh)), NO_FAULTS);
  }

  // --- Refreshing an access token --------------------------------------------

  /** A bearer token found in the header wins over one found in the body. */
  function PresentedToken(header: Option<Token>, body: Option<Token>): Option<Token> {
    if header.Some? then header else body
  }

  datatype Checked = Checked(result: Result<AccessClaims, Error>, session: Option<Session>, cache: Cache)

  function CheckSession(cfg: Config, s: Store, token: Option<Token>, preFault: bool, f: Faults): Checked {
    if token.None? then Checked(Failure(MissingRefreshToken), None, s.cache)
    else
      var claims := ExtractToken(cfg.lifetimes, token.value, s.now);
      if claims.None? || claims.value.sessionId == "" then Checked(Failure(InvalidRefreshToken), None, s.cache)
      else
        var c := claims.value;
        var inactive := EnsureSessionActive(cfg, s, c.sessionId, preFault);
        if inactive.Some? then Checked(Failure(inactive.value), None, s.cache)
        else
          var loaded := GetSession(cfg, s, c.sessionId, f);
          match loaded.result
          case Failure(e) =>
            Checked(Failure(if IsSessionMissing(e) then SessionNotFound else e), None, loaded.cache)
          case Success(session) =>
            if c.userId != "" && c.userId != session.userId then
              Checked(Failure(InvalidRefreshToken), None, loaded.cache)
            else
              match RefreshAccessToken(cfg.lifetimes, c, session.user.roles, s.now)
              case None => Checked(Failure(InvalidDuration), None, loaded.cache)
              case Some(access) => Checked(Success(access), Some(session), loaded.cache)
  }

  datatype Reply = Ok(access: AccessClaims) | TokenInvalid | Unauthorized(e: Error) | ServerError

  datatype Refreshed = Refreshed(reply: Reply, cache: Cache)

  function RefreshResponse(cfg: Config, s: Store, token: Option<Token>, f: Faults): Refreshed {
    if token.None? then Refreshed(TokenInvalid, s.cache)
    else
      var claims := ExtractToken(cfg.lifetimes, token.value, s.now);
      if claims.None? then Refreshed(TokenInvalid, s.cache)
      else
        var loaded := GetSession(cfg, s, claims.value.sessionId, f);
        match loaded.result
        case Failure(e) =>
          Refreshed(if IsSessionMissing(e) then Unauthorized(SessionNotFound)
                    else if e.SessionExpired? then Unauthorized(SessionExpired)
                    else ServerError, loaded.cache)
        case Success(session) =>
          match RefreshAccessToken(cfg.lifetimes, claims.value, session.user.roles, s.now)
          case None => Refreshed(ServerError, loaded.cache)
          case Some(access) => Refreshed(Ok(access), loaded.cache)
  }

  /**
   The refresh endpoint and `check_session` accept the same tokens, mint the same claims and leave
   the same cache, except that `check_session` also refuses a token whose user is not the loaded session's.
   */
  lemma RefreshPathsCompared(cfg: Config, s: Store, token: Option<Token>, f: Faults)
    ensures var check, refresh := CheckSession(cfg, s, token, false, f), RefreshResponse(cfg, s, token, f);
            && (check.result.Success? <==>
                  && refresh.reply.Ok?
                  && (var c := token.value.refresh;
                      c.userId == "" || c.userId == GetSession(cfg, s, c.sessionId, f).result.value.userId))
            && (check.result.Success? ==>
                  refresh.reply == Ok(check.result.value) && refresh.cache == check.cache)
  {
    hide GetSession, EnsureSessionActive, Live;
    if token.Some? && token.value.Refresh? && GetSession(cfg, s, token.value.refresh.sessionId, f).result.Success? {
      LoadedIsLive(cfg, s, token.value.refresh.sessionId, f);
      LiveIsActive(cfg, s, token.value.refresh.sessionId);
      NothingLoads(cfg, s, f);
    }
  }

  lemma LiveIsActive(cfg: Config, s: Store, sessionId: string)
    ensures EnsureSessionActive(cfg, s, sessionId, false).None? <==>
            cfg.bindSession(sessionId).Some? && Live(s, cfg.bindSession(sessionId).value)
  {
  }

  lemma NothingLoads(cfg: Config, s: Store, f: Faults)
    ensures GetSession(cfg, s, "", f).result.Failure?
  {
  }

  /** The claims of a refreshed token: the presented token's user, the loaded session's roles, one access duration. */
  predicate MintedFrom(cfg: Config, c: RefreshClaims, session: Session, now: nat, access: AccessClaims) {
    && AccessDuration(cfg.lifetimes).Success?
    && access.userId == c.userId && access.roles == session.user.roles && access.content == "{}"
    && access.iat == now / SECOND && access.exp == now / SECOND + AccessDuration(cfg.lifetimes).value.secs
  }

  /**
   Every answer of the refresh endpoint, for any store, token and faults. Whatever the refresh token says, the
   new token carries the roles of the session as it loads now.
   */
  lemma RefreshAnswers(cfg: Config, s: Store, token: Option<Token>, f: Faults)
    ensures var reply := RefreshResponse(cfg, s, token, f).reply;
            if token.None? || !token.value.Refresh? || s.now >= (token.value.refresh.exp + cfg.lifetimes.leeway + 1) * SECOND then
              reply == TokenInvalid
            else
              match GetSession(cfg, s, token.value.refresh.sessionId, f).result
              case Failure(e) =>
                reply == (match e
                          case SessionNotFound => Unauthorized(SessionNotFound)
                          case RowNotFound => Unauthorized(SessionNotFound)
                          case SessionExpired => Unauthorized(SessionExpired)
                          case _ => ServerError)
              case Success(session) =>
                if AccessDuration(cfg.lifetimes).Failure? then reply == ServerError
                else reply.Ok? && MintedFrom(cfg, token.value.refresh, session, s.now, reply.access)
  {
    hide GetSession, ExtractToken;
    if token.Some? {
      ExtractAccepts(cfg.lifetimes, token.value, s.now);
    }
    if AccessDuration(cfg.lifetimes).Success? {
      TimestampAfter(s.now, AccessDuration(cfg.lifetimes).value);
    }
  }

  lemma UnreadableFails(cfg: Config, s: Store, sessionId: string, f: Faults)
    requires sessionId != ""
    ensures cfg.bindSession(sessionId).None? ==> GetSession(cfg, s, sessionId, f).result == Failure(Database)
  {
  }

  /** And of `check_session`, which looks at the row first and compares the user. */
  lemma CheckAnswers(cfg: Config, s: Store, token: Option<Token>, preFault: bool, f: Faults)
    ensures var r := CheckSession(cfg, s, token, preFault, f).result;
            if token.None? then r == Failure(MissingRefreshToken)
            else if !token.value.Refresh? || s.now >= (token.value.refresh.exp + cfg.lifetimes.leeway + 1) * SECOND
                    || token.value.refresh.sessionId == "" then
              r == Failure(InvalidRefreshToken)
            else
              var c := token.value.refresh;
              if preFault then r == Failure(Database)
              else if cfg.bindSession(c.sessionId).Some? && !Live(s, cfg.bindSession(c.sessionId).value) then
                var key := cfg.bindSession(c.sessionId).value;
                r == Failure(if key in s.sessions && !s.sessions[key].isDeleted then SessionExpired else SessionNotFound)
              else
                match GetSession(cfg, s, c.sessionId, f).result
                case Failure(e) => r == Failure(if e.SessionNotFound? || e.RowNotFound? then SessionNotFound else e)
                case Success(session) =>
                  if c.userId != "" && c.userId != session.userId then r == Failure(InvalidRefreshToken)
                  else if AccessDuration(cfg.lifetimes).Failure? then r == Failure(InvalidDuration)
                  else r.Success? && MintedFrom(cfg, c, session, s.now, r.value)
  {
    hide GetSession, ExtractToken;
    if token.Some? {
      ExtractAccepts(cfg.lifetimes, token.value, s.now);
      if token.value.Refresh? && token.value.refresh.sessionId != "" {
        var sessionId := token.value.refresh.sessionId;
        if GetSession(cfg, s, sessionId, f).result.Success? {
          LoadedIsLive(cfg, s, sessionId, f);
        }
        UnreadableFails(cfg, s, sessionId, f);
      }
    }
    if AccessDuration(cfg.lifetimes).Success? {
      TimestampAfter(s.now, AccessDuration(cfg.lifetimes).value);
    }
  }

  /** Without failing round trips a dead session is answered by its death, and a failing table by a server error. */
  lemma DeadAnswers(cfg: Config, s: Store, c: RefreshClaims, lower: Lower, routeRoles: seq<string>)
    requires c.sessionId != "" && cfg.bindSession(c.sessionId).Some? && !Live(s, cfg.bindSession(c.sessionId).value)
    requires s.now < (c.exp + cfg.lifetimes.leeway + 1) * SECOND
    ensures var key := cfg.bindSession(c.sessionId).value;
            var death := if key in s.sessions && !s.sessions[key].isDeleted then SessionExpired else SessionNotFound;
            && RefreshResponse(cfg, s, Some(Token.Refresh(c)), NO_FAULTS).reply == Unauthorized(death)
            && CheckSession(cfg, s, Some(Token.Refresh(c)), false, NO_FAULTS).result == Failure(death)
            && DecideWeb(cfg, s, lower, routeRoles, false, c.sessionId, NO_FAULTS).reply == ToSignIn
  {
    hide GetSession;
    DeadFails(cfg, s, c.sessionId, NO_FAULTS);
    RefreshAnswers(cfg, s, Some(Token.Refresh(c)), NO_FAULTS);
    CheckAnswers(cfg, s, Some(Token.Refresh(c)), false, NO_FAULTS);
    WebAnswers(cfg, s, lower, routeRoles, false, c.sessionId, NO_FAULTS);
  }

  // --- The web middleware ----------------------------------------------------

  datatype WebReply = Pass | ToSignIn | Forbidden | Broken

  datatype WebOutcome = WebOutcome(reply: WebReply, cache: Cache)

  /** A request for a protected page, with the value of its session cookie. */
  function DecideWeb(
    cfg: Config, s: Store, lower: Lower, routeRoles: seq<string>, excluded: bool, cookie: string, f: Faults): WebOutcome
  {
    if excluded then WebOutcome(Pass, s.cache)
    else if cookie == "" then WebOutcome(ToSignIn, s.cache)
    else
      var loaded := GetSession(cfg, s, cookie, f);
      var reply := match loaded.result
        case Failure(e) => if Class(e).Otherwise? then Broken else ToSignIn
        case Success(session) =>
          if routeRoles != [] && !Decide(lower, routeRoles, FormatRoles(session.user.roles)).hasRole then Forbidden
          else Pass;
      WebOutcome(reply, loaded.cache)
  }

  /** Every answer of the middleware, for any store, cookie and faults. */
  lemma WebAnswers(
    cfg: Config, s: Store, lower: Lower, routeRoles: seq<string>, excluded: bool, cookie: string, f: Faults)
    ensures var reply := DecideWeb(cfg, s, lower, routeRoles, excluded, cookie, f).reply;
            if excluded then reply == Pass
            else if cookie == "" then reply == ToSignIn
            else
              match GetSession(cfg, s, cookie, f).result
              case Failure(e) =>
                reply == (if e.SessionNotFound? || e.RowNotFound? || e.SessionExpired? then ToSignIn else Broken)
              case Success(session) =>
                reply == (if routeRoles == [] || exists u | u in Strings(session.user.roles) :: Matches(lower, routeRoles, u)
                          then Pass else Forbidden)
  {
    hide GetSession, Matches;
    if cookie != "" && GetSession(cfg, s, cookie, f).result.Success? {
      DecideFormatted(lower, routeRoles, GetSession(cfg, s, cookie, f).result.value.user.roles);
    }
  }

  /** So none of the operations that load a session succeeds on a dead one. */
  lemma DeadRefused(
    cfg: Config, s: Store, c: RefreshClaims, preFault: bool, lower: Lower, routeRoles: seq<string>, f: Faults)
    requires cfg.bindSession(c.sessionId).Some? && !Live(s, cfg.bindSession(c.sessionId).value)
    ensures CheckSession(cfg, s, Some(Token.Refresh(c)), preFault, f).result.Failure?
    ensures !RefreshResponse(cfg, s, Some(Token.Refresh(c)), f).reply.Ok?
    ensures !DecideWeb(cfg, s, lower, routeRoles, false, c.sessionId, f).reply.Pass?
  {
    hide GetSession, Live, EnsureSessionActive;
    DeadFails(cfg, s, c.sessionId, f);
  }

  /** A protected page is only ever served on a live session, whatever Redis holds. */
  lemma PassNeedsLiveSession(
    cfg: Config, s: Store, lower: Lower, routeRoles: seq<string>, cookie: string, f: Faults)
    requires DecideWeb(cfg, s, lower, routeRoles, false, cookie, f).reply.Pass?
    ensures cfg.bindSession(cookie).Some? && Live(s, cfg.bindSession(cookie).value)
  {
    LoadedIsLive(cfg, s, cookie, f);
  }
}
