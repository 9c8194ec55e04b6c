/**
 The handle that owns the tables, the cache and the clock, with the statements of the source in their
 order. Each method is tied to the function of the same name in Sessions, and keeps the store well
 formed.
 */
module AuthorizationHandle {
  import opened Wrappers
  import opened Roles
  import opened Tokens
  import opened Sessions

  class Authorization {
    const cfg: Config
    var sessions: map<string, SessionRow>
    var users: map<string, RolesColumn>
    var cache: Cache
    var now: nat

    constructor (cfg: Config)
      ensures this.cfg == cfg && State() == Store(map[], map[], map[], 0)
      ensures StoreOk(cfg, State())
    {
      this.cfg := cfg;
      sessions, users, cache, now := map[], map[], map[], 0;
    }

    function State(): Store
      reads this
    {
      Store(sessions, users, cache, now)
    }

    method GetSessionFromRedis(sessionId: string, fail: bool) returns (r: Result<SessionData, Error>)
      ensures r == Sessions.GetSessionFromRedis(cfg, cache, now, sessionId, fail)
      ensures CacheOk(cfg, State()) && r.Success? ==> r.value.id == sessionId
    {
      CachedIsOwnIfOk(sessionId, fail);
      if sessionId == "" {
        return Failure(Unset);
      }
      if !cfg.redis || fail {
        return Failure(Error.Redis);
      }
      var key := BuildRedisKey(cfg.prefix, sessionId);
      if key !in cache || cache[key].until <= now {
        return Failure(SessionNotFound);
      }
      var data := cache[key].data;
      if !ValidSessionData(data) {
        return Failure(Unset);
      }
      return Success(data);
    }

    lemma CachedIsOwnIfOk(sessionId: string, fail: bool)
      ensures var r := Sessions.GetSessionFromRedis(cfg, cache, now, sessionId, fail);
              CacheOk(cfg, State()) && r.Success? ==> r.value.id == sessionId
    {
      if CacheOk(cfg, State()) {
        CachedIsOwn(cfg, State(), sessionId, fail);
      }
    }

    method SetSessionToRedis(d: SessionData, fail: bool) returns (stored: bool)
      modifies this`cache
      ensures cache == Sessions.SetSessionToRedis(cfg, old(cache), now, d, fail)
      ensures stored ==> BuildRedisKey(cfg.prefix, d.id) in cache && cache[BuildRedisKey(cfg.prefix, d.id)].data == d
      ensures !stored ==> cache == old(cache)
      ensures old(CacheOk(cfg, State())) && (ValidSessionData(d) ==> DataOk(cfg, State(), d)) ==> CacheOk(cfg, State())
    {
      if !ValidSessionData(d) || !cfg.redis || fail {
        return false;
      }
      var ttl := if cfg.ttlSeconds == 0 then 1 else cfg.ttlSeconds;
      cache := cache[BuildRedisKey(cfg.prefix, d.id) := CacheEntry(d, now + ttl * SECOND)];
      return true;
    }

    method EnsureSessionActive(sessionId: string, fail: bool) returns (e: Option<Error>)
      ensures e == Sessions.EnsureSessionActive(cfg, State(), sessionId, fail)
      ensures e.None? ==> cfg.bindSession(sessionId).Some? && Live(State(), cfg.bindSession(sessionId).value)
    {
      var row := FetchSession(cfg, State(), sessionId, fail);
      if row.Failure? {
        return Some(if row.error.RowNotFound? then SessionNotFound else row.error);
      }
      e := SessionUsable(row.value.1, now);
    }

    /** `get_session` and `get_session_from_db`. */
    method GetSession(sessionId: string, f: Faults) returns (r: Result<Session, Error>)
      modifies this`cache
      ensures Loaded(r, cache) == Sessions.GetSession(cfg, old(State()), sessionId, f)
      ensures old(StoreOk(cfg, State())) && Canonical(cfg) ==> StoreOk(cfg, State())
      ensures r.Success? ==> cfg.bindSession(sessionId).Some? && Live(State(), cfg.bindSession(sessionId).value)
      ensures old(StoreOk(cfg, State())) && r.Success? ==> cfg.bindSession(sessionId) == Some(r.value.id)
    {
      hide StoreOk, Sessions.LoadFromCache, Sessions.LoadFromTables;
      LoadIsSound(sessionId, f);
      if sessionId == "" {
        return Failure(Unset);
      }
      if cfg.redis {
        var hit := GetSessionFromRedis(sessionId, f.redisGet);
        if hit.Success? {
          r := LoadFromCache(sessionId, hit.value, f);
          return;
        }
      }
      r := LoadFromTables(sessionId, f);
    }

    /** A hit: the row is checked, and the roles are renewed if there are any to read. */
    method LoadFromCache(sessionId: string, cached: SessionData, f: Faults) returns (r: Result<Session, Error>)
      modifies this`cache
      ensures Loaded(r, cache) == Sessions.LoadFromCache(cfg, old(State()), sessionId, cached, f)
      ensures r.Success? ==> cfg.bindSession(sessionId).Some? && Live(State(), cfg.bindSession(sessionId).value)
      ensures r.Success? ==> r.value.id == cached.id && r.value.userId == cached.userId
    {
      var inactive := EnsureSessionActive(sessionId, f.active);
      if inactive.Some? {
        return Failure(inactive.value);
      }
      var roles := cached.roles;
      var current := GetUserRolesFromDb(cfg, State(), cached.userId, f.roles);
      if current.Success? && current.value != [] {
        roles := current.value;
        var _ := SetSessionToRedis(SessionData(cached.id, cached.userId, roles), f.redisSet);
      }
      return Success(Session(cached.id, cached.userId, User(cached.userId, roles), None));
    }

    /** A miss: the row, then its user, then the cache. */
    method LoadFromTables(sessionId: string, f: Faults) returns (r: Result<Session, Error>)
      modifies this`cache
      ensures Loaded(r, cache) == Sessions.LoadFromTables(cfg, old(State()), sessionId, f)
      ensures r.Success? ==>
                && cfg.bindSession(sessionId) == Some(r.value.id) && Live(State(), r.value.id)
                && r.value.userId == sessions[r.value.id].userId
    {
      var fetched := FetchSession(cfg, State(), sessionId, f.row);
      if fetched.Failure? {
        return Failure(fetched.error);
      }
      var (key, row) := fetched.value;
      var dead := SessionUsable(row, now);
      if dead.Some? {
        return Failure(dead.value);
      }
      var session := Session(key, row.userId, User("", []), row.expiresAt);
      var user := FetchUser(cfg, State(), session.userId, f.user);
      if user.Failure? {
        return Failure(user.error);
      }
      session := session.(user := user.value);
      if cfg.redis {
        var _ := SetSessionToRedis(SessionData(session.id, session.userId, session.user.roles), f.redisSet);
      }
      return Success(session);
    }

    lemma LoadIsSound(sessionId: string, f: Faults)
      ensures var r := Sessions.GetSession(cfg, State(), sessionId, f).result;
              r.Success? ==>
                && cfg.bindSession(sessionId).Some? && Live(State(), cfg.bindSession(sessionId).value)
                && (StoreOk(cfg, State()) ==> cfg.bindSession(sessionId) == Some(r.value.id))
      ensures StoreOk(cfg, State()) && Canonical(cfg) ==>
                StoreOk(cfg, State().(cache := Sessions.GetSession(cfg, State(), sessionId, f).cache))
    {
      if Sessions.GetSession(cfg, State(), sessionId, f).result.Success? {
        LoadedIsOwn(cfg, State(), sessionId, f);
        LoadedIsLive(cfg, State(), sessionId, f);
      }
      if StoreOk(cfg, State()) && Canonical(cfg) {
        LoadKeepsStore(cfg, State(), sessionId, f);
      }
    }

    /** `create_session`: inserts the row and returns its identifier. */
    method CreateSession(o: AuthorizeOptions, sessionId: string, fail: bool) returns (e: Option<Error>)
      modifies this`sessions
      ensures var row := NewRow(cfg, old(State()), o.userId, sessionId, fail);
              && (e.None? <==> row.Success?)
              && (row.Failure? ==> e == Some(row.error) && sessions == old(sessions))
              && (row.Success? ==> sessions == old(sessions)[sessionId := row.value] && sessionId !in old(sessions))
    {
      var duration := RefreshDuration(cfg.lifetimes);
      if duration.Failure? {
        return Some(InvalidDuration);
      }
      var expiresAt := After(now, duration.value);
      if fail || sessionId in sessions {
        return Some(Database);
      }
      var userId := "";
      if o.userId != "" {
        var key := cfg.bindUser(o.userId);
        if key.None? || key.value !in users {
          return Some(Database);
        }
        userId := key.value;
      }
      sessions := sessions[sessionId := SessionRow(userId, Some(expiresAt), false)];
      return None;
    }

    /** `authorize`: a row, then a token pair for it, with the clock `lag` further on. */
    method Authorize(o: AuthorizeOptions, sessionId: string, lag: nat, rolesFault: bool, insertFault: bool)
      returns (r: Result<TokenPair, Error>)
      modifies this`sessions, this`now
      ensures Authorized(r, sessions) ==
              Sessions.Authorize(cfg, old(State()), o, sessionId, lag, rolesFault, insertFault)
      ensures now == old(now) + lag
      ensures old(StoreOk(cfg, State()) && Unused(cfg, State(), sessionId)) ==> StoreOk(cfg, State())
    {
      hide StoreOk, Unused, NewRow, SignTokenPair;
      AuthorizeKeepsStoreIfOk(o, sessionId, lag, rolesFault, insertFault);
      var options := o;
      if options.userId != "" {
        var roles := GetUserRolesFromDb(cfg, State(), options.userId, rolesFault);
        if roles.Success? {
          options := options.(roles := roles.value);
        }
      }
      assert options == WithStoredRoles(cfg, old(State()), o, rolesFault);
      var e := CreateSession(options, sessionId, insertFault);
      now := now + lag;
      if e.Some? {
        return Failure(e.value);
      }
      var pair := SignTokenPair(cfg.lifetimes, options, sessionId, now);
      if pair.None? {
        return Failure(InvalidDuration);
      }
      return Success(pair.value);
    }

    lemma AuthorizeKeepsStoreIfOk(
      o: AuthorizeOptions, sessionId: string, lag: nat, rolesFault: bool, insertFault: bool)
      ensures StoreOk(cfg, State()) && Unused(cfg, State(), sessionId) ==>
                StoreOk(cfg, State().(
                  sessions := Sessions.Authorize(cfg, State(), o, sessionId, lag, rolesFault, insertFault).sessions,
                  now := now + lag))
    {
      if StoreOk(cfg, State()) && Unused(cfg, State(), sessionId) {
        AuthorizeKeepsStore(cfg, State(), o, sessionId, lag, rolesFault, insertFault);
      }
    }

    method CheckSession(header: Option<Token>, body: Option<Token>, preFault: bool, f: Faults)
      returns (r: Result<AccessClaims, Error>, cookie: Option<string>)
      modifies this`cache
      ensures var c := Sessions.CheckSession(cfg, old(State()), PresentedToken(header, body), preFault, f);
              && r == c.result && cache == c.cache
              && cookie == (if c.session.Some? then Some(c.session.value.id) else None)
      ensures r.Success? <==> cookie.Some?
      ensures old(StoreOk(cfg, State())) && cookie.Some? ==> Live(State(), cookie.value)
    {
      cookie := None;
      var token := if header.Some? then header else body;
      if token.None? {
        return Failure(MissingRefreshToken), None;
      }
      var extracted := ExtractToken(cfg.lifetimes, token.value, now);
      if extracted.None? || extracted.value.sessionId == "" {
        return Failure(InvalidRefreshToken), None;
      }
      var claims := extracted.value;
      var inactive := EnsureSessionActive(claims.sessionId, preFault);
      if inactive.Some? {
        return Failure(inactive.value), None;
      }
      var loaded := GetSession(claims.sessionId, f);
      if loaded.Failure? {
        return Failure(if IsSessionMissing(loaded.error) then SessionNotFound else loaded.error), None;
      }
      var session := loaded.value;
      if claims.userId != "" && claims.userId != session.userId {
        return Failure(InvalidRefreshToken), None;
      }
      var access := RefreshAccessToken(cfg.lifetimes, claims, session.user.roles, now);
      if access.None? {
        return Failure(InvalidDuration), None;
      }
      return Success(access.value), Some(session.id);
    }

    method RefreshResponse(header: Option<Token>, body: Option<Token>, f: Faults) returns (reply: Reply)
      modifies this`cache
      ensures Refreshed(reply, cache) == Sessions.RefreshResponse(cfg, old(State()), PresentedToken(header, body), f)
      ensures reply.Ok? ==>
                var t := PresentedToken(header, body).value;
                t.Refresh? && cfg.bindSession(t.refresh.sessionId).Some? && Live(State(), cfg.bindSession(t.refresh.sessionId).value)
    {
      var token := if header.Some? then header else body;
      if token.None? {
        return TokenInvalid;
      }
      var claims := ExtractToken(cfg.lifetimes, token.value, now);
      if claims.None? {
        return TokenInvalid;
      }
      var session := GetSession(claims.value.sessionId, f);
      if session.Failure? {
        if IsSessionMissing(session.error) {
          return Unauthorized(SessionNotFound);
        }
        if session.error.SessionExpired? {
          return Unauthorized(SessionExpired);
        }
        return ServerError;
      }
      var access := RefreshAccessToken(cfg.lifetimes, claims.value, session.value.user.roles, now);
      if access.None? {
        return ServerError;
      }
      return Ok(access.value);
    }

    /** `web_outcome`. */
    method WebOutcome(lower: Lower, routeRoles: seq<string>, excluded: bool, cookie: string, f: Faults)
      returns (reply: WebReply)
      modifies this`cache
      ensures Sessions.WebOutcome(reply, cache) == DecideWeb(cfg, old(State()), lower, routeRoles, excluded, cookie, f)
      ensures reply.Pass? && !excluded ==>
                cfg.bindSession(cookie).Some? && Live(State(), cfg.bindSession(cookie).value)
    {
      if excluded {
        return Pass;
      }
      if cookie == "" {
        return ToSignIn;
      }
      var session := GetSession(cookie, f);
      if session.Failure? {
        return if IsSessionMissing(session.error) || session.error.SessionExpired? then ToSignIn else Broken;
      }
      if routeRoles != [] {
        var hasRole, _, _ := GetRole(lower, routeRoles, FormatRoles(session.value.user.roles));
        if !hasRole {
          return Forbidden;
        }
      }
      return Pass;
    }
  }
}
