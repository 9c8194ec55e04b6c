/**
 Any number of requests at once. Between two database or Redis round trips of one request every other
 request, the application and the clock may move. A run is a sequence of such steps from an empty store.
 */
module SessionRuns {
  import opened Wrappers
  import opened Tokens
  import opened Sessions

  // --- One request, round trip by round trip ---------------------------------

  /** The step and the time of a round trip. */
  datatype Stamp = Stamp(step: nat, time: nat)

  /** A round trip that saw a session live: when, which row it was, and whose. */
  datatype Sight = Sight(at: Stamp, key: string, owner: string)

  /** What a look at the sessions table sees under the identifier asked for. */
  function Look(cfg: Config, s: Store, at: Stamp, sessionId: string): Sight {
    match FetchSession(cfg, s, sessionId, false)
    case Success((key, row)) => Sight(at, key, row.userId)
    case Failure(_) => Sight(at, "", "")
  }

  /** Where `get_session` stands; `live` is the round trip that saw the session live. */
  datatype Progress =
    | ReadCache(sessionId: string)
    | CheckCached(sessionId: string, cached: SessionData)
    | ReadRoles(cached: SessionData, live: Sight)
    | ReadRow(sessionId: string)
    | ReadUser(key: string, row: SessionRow, live: Sight)
    | WriteCache(data: SessionData, session: Session, live: Sight)
    | Done(session: Session, live: Sight)
    | Failed(e: Error)

  function Start(sessionId: string): Progress {
    if sessionId == "" then Failed(Unset) else ReadCache(sessionId)
  }

  function SessionOf(d: SessionData): Session {
    Session(d.id, d.userId, User(d.userId, d.roles), None)
  }

  /** One round trip, and the cache after it. */
  function Trip(cfg: Config, s: Store, at: Stamp, p: Progress, fail: bool): (Progress, Cache) {
    match p
    case ReadCache(sessionId) =>
      var cached := GetSessionFromRedis(cfg, s.cache, s.now, sessionId, fail);
      (if cached.Success? then CheckCached(sessionId, cached.value) else ReadRow(sessionId), s.cache)
    case CheckCached(sessionId, cached) =>
      var inactive := EnsureSessionActive(cfg, s, sessionId, fail);
      (if inactive.Some? then Failed(inactive.value) else ReadRoles(cached, Look(cfg, s, at, sessionId)), s.cache)
    case ReadRoles(cached, live) =>
      var current := GetUserRolesFromDb(cfg, s, cached.userId, fail);
      if current.Success? && current.value != [] then
        var data := cached.(roles := current.value);
        (WriteCache(data, SessionOf(data), live), s.cache)
      else (Done(SessionOf(cached), live), s.cache)
    case ReadRow(sessionId) =>
      (match FetchSession(cfg, s, sessionId, fail)
       case Failure(e) => Failed(e)
       case Success((key, row)) =>
         var dead := SessionUsable(row, s.now);
         if dead.Some? then Failed(dead.value) else ReadUser(key, row, Sight(at, key, row.userId)), s.cache)
    case ReadUser(key, row, live) =>
      (match FetchUser(cfg, s, row.userId, fail)
       case Failure(e) => Failed(e)
       case Success(user) =>
         WriteCache(SessionData(key, row.userId, user.roles), Session(key, row.userId, user, row.expiresAt), live),
       s.cache)
    case WriteCache(data, session, live) =>
      (Done(session, live), SetSessionToRedis(cfg, s.cache, s.now, data, fail))
    case _ => (p, s.cache)
  }

  function TripFault(f: Faults, p: Progress): bool {
    match p
    case ReadCache(_) => f.redisGet
    case CheckCached(_, _) => f.active
    case ReadRoles(_, _) => f.roles
    case ReadRow(_) => f.row
    case ReadUser(_, _, _) => f.user
    case WriteCache(_, _, _) => f.redisSet
    case _ => false
  }

  function Remaining(p: Progress): nat {
    match p
    case ReadCache(_) => 4
    case CheckCached(_, _) => 3
    case ReadRow(_) => 3
    case ReadRoles(_, _) => 2
    case ReadUser(_, _, _) => 2
    case WriteCache(_, _, _) => 1
    case _ => 0
  }

  /** The round trips of one request with nothing in between. */
  function RunAlone(cfg: Config, s: Store, at: Stamp, p: Progress, f: Faults): (Progress, Cache)
    decreases Remaining(p)
  {
    if Remaining(p) == 0 then (p, s.cache)
    else
      var (next, cache) := Trip(cfg, s, at, p, TripFault(f, p));
      RunAlone(cfg, s.(cache := cache), at, next, f)
  }

  /** The end of a request says what the atomic operation returns. */
  predicate Says(end: (Progress, Cache), atomic: Loaded, live: Sight) {
    && end.1 == atomic.cache
    && end.0 == match atomic.result
                case Success(session) => Done(session, live)
                case Failure(e) => Failed(e)
  }

  lemma WriteAlone(cfg: Config, s: Store, at: Stamp, d: SessionData, session: Session, live: Sight, f: Faults)
    ensures RunAlone(cfg, s, at, WriteCache(d, session, live), f) ==
            (Done(session, live), SetSessionToRedis(cfg, s.cache, s.now, d, f.redisSet))
  {
  }

  lemma HitAlone(cfg: Config, s: Store, at: Stamp, sessionId: string, cached: SessionData, f: Faults)
    ensures Says(RunAlone(cfg, s, at, CheckCached(sessionId, cached), f), LoadFromCache(cfg, s, sessionId, cached, f),
                 Look(cfg, s, at, sessionId))
  {
    var (next, cache) := Trip(cfg, s, at, CheckCached(sessionId, cached), f.active);
    assert s.(cache := cache) == s;
    if next.ReadRoles? {
      var (last, same) := Trip(cfg, s, at, next, f.roles);
      assert s.(cache := same) == s;
      assert RunAlone(cfg, s, at, next, f) == RunAlone(cfg, s, at, last, f);
      if last.WriteCache? {
        WriteAlone(cfg, s, at, last.data, last.session, last.live, f);
      }
    }
  }

  lemma MissAlone(cfg: Config, s: Store, at: Stamp, sessionId: string, f: Faults)
    ensures Says(RunAlone(cfg, s, at, ReadRow(sessionId), f), LoadFromTables(cfg, s, sessionId, f),
                 Look(cfg, s, at, sessionId))
  {
    var (next, cache) := Trip(cfg, s, at, ReadRow(sessionId), f.row);
    assert s.(cache := cache) == s;
    if next.ReadUser? {
      var (last, same) := Trip(cfg, s, at, next, f.user);
      assert s.(cache := same) == s;
      assert RunAlone(cfg, s, at, next, f) == RunAlone(cfg, s, at, last, f);
      if last.WriteCache? {
        WriteAlone(cfg, s, at, last.data, last.session, last.live, f);
      }
    }
  }

  /** An undisturbed request is the atomic one. */
  lemma UndisturbedIsAtomic(cfg: Config, s: Store, at: Stamp, sessionId: string, f: Faults)
    ensures Says(RunAlone(cfg, s, at, Start(sessionId), f), GetSession(cfg, s, sessionId, f), Look(cfg, s, at, sessionId))
  {
    hide LoadFromCache, LoadFromTables;
    if sessionId != "" {
      var cached := GetSessionFromRedis(cfg, s.cache, s.now, sessionId, f.redisGet);
      if cached.Success? {
        HitAlone(cfg, s, at, sessionId, cached.value, f);
      } else {
        MissAlone(cfg, s, at, sessionId, f);
      }
      assert s.(cache := s.cache) == s;
      var next := if cached.Success? then CheckCached(sessionId, cached.value) else ReadRow(sessionId);
      assert RunAlone(cfg, s, at, ReadCache(sessionId), f) == RunAlone(cfg, s, at, next, f);
    }
  }

  // --- The whole deployment ------------------------------------------------

  datatype Purpose = ForPage | ForRefresh(claims: RefreshClaims) | ForCheck(claims: RefreshClaims)

  datatype Request =
    | Precheck(claims: RefreshClaims)
    | Load(purpose: Purpose, progress: Progress)
    | SignInRoles(o: AuthorizeOptions)
    | SignInRow(o: AuthorizeOptions)
    | SignInTokens(o: AuthorizeOptions, live: Sight)
    | Over

  /** An access token that was handed out: the sight of the session it rests on, when, and for which request. */
  datatype Minted = Minted(live: Sight, claims: AccessClaims, at: nat, request: nat)

  /**
   The store, the requests in flight under the number of the step at which they arrived, and five records of
   the past: the session identifiers ever used, the role lists users ever had, the access tokens minted, the
   refresh tokens issued, and whether another client ever wrote to Redis.
   */
  datatype World = World(
    store: Store, requests: map<nat, Request>, step: nat,
    used: set<string>, held: set<(string, RoleList)>, minted: seq<Minted>, issued: seq<RefreshClaims>,
    foreign: bool)

  const INITIAL := World(Store(map[], map[], map[], 0), map[], 0, {}, {}, [], [], false)

  datatype Step =
    // requests
    | OpenPage(cookie: string)
    | PresentRefresh(token: Token)
    | PresentCheck(token: Token)
    | SignIn(o: AuthorizeOptions)
    | Proceed(request: nat, fail: bool, random: string)
    // the application, the operator and time
    | Tick(elapsed: nat)
    | SoftDelete(key: string)
    | DeleteRow(key: string)
    | PutUser(userId: string, column: RolesColumn)
    | DeleteUser(userId: string)
    | Evict(redisKey: string)
    | Overwrite(redisKey: string, entry: CacheEntry)

  function Arrive(w: World, r: Request): World {
    w.(requests := w.requests[w.step := r])
  }

  function ArriveToken(cfg: Config, w: World, token: Token, check: bool): World {
    var claims := ExtractToken(cfg.lifetimes, token, w.store.now);
    if claims.None? then w
    else if !check then Arrive(w, Load(ForRefresh(claims.value), Start(claims.value.sessionId)))
    else if claims.value.sessionId == "" then w
    else Arrive(w, Precheck(claims.value))
  }

  /** The last step of a refresh: mint, unless `check_session` finds another user's token. */
  function Mint(cfg: Config, w: World, id: nat, claims: RefreshClaims, check: bool, session: Session, live: Sight): World {
    var over := w.(requests := w.requests[id := Over]);
    if check && claims.userId != "" && claims.userId != session.userId then over
    else
      match RefreshAccessToken(cfg.lifetimes, claims, session.user.roles, w.store.now)
      case None => over
      case Some(access) =>
        over.(minted := w.minted + [Minted(live, access, w.store.now, id)])
  }

  function ProceedLoad(cfg: Config, w: World, id: nat, purpose: Purpose, p: Progress, fail: bool): World {
    match p
    case Done(session, live) =>
      (match purpose
       case ForPage => w
       case ForRefresh(claims) => Mint(cfg, w, id, claims, false, session, live)
       case ForCheck(claims) => Mint(cfg, w, id, claims, true, session, live))
    case _ =>
      var (next, cache) := Trip(cfg, w.store, Stamp(w.step, w.store.now), p, fail);
      w.(store := w.store.(cache := cache), requests := w.requests[id := Load(purpose, next)])
  }

  /** A random identifier is canonical and was never drawn before; any other draw changes nothing. */
  function ProceedRow(cfg: Config, w: World, id: nat, o: AuthorizeOptions, fail: bool, random: string): World {
    if random == "" || random in w.used || cfg.bindSession(random) != Some(random) then w
    else
      match NewRow(cfg, w.store, o.userId, random, fail)
      case Failure(_) => w.(requests := w.requests[id := Over])
      case Success(row) =>
        w.(store := w.store.(sessions := w.store.sessions[random := row]),
           used := w.used + {random},
           requests := w.requests[id := SignInTokens(o, Sight(Stamp(w.step, w.store.now), random, row.userId))])
  }

  function ProceedTokens(cfg: Config, w: World, id: nat, o: AuthorizeOptions, live: Sight): World {
    var over := w.(requests := w.requests[id := Over]);
    match SignTokenPair(cfg.lifetimes, o, live.key, w.store.now)
    case None => over
    case Some(pair) =>
      over.(minted := w.minted + [Minted(live, pair.access, w.store.now, id)],
            issued := w.issued + [pair.refresh])
  }

  function ProceedRequest(cfg: Config, w: World, id: nat, fail: bool, random: string): World {
    if id !in w.requests then w
    else
      match w.requests[id]
      case Precheck(claims) =>
        var inactive := EnsureSessionActive(cfg, w.store, claims.sessionId, fail);
        w.(requests := w.requests[id :=
          if inactive.Some? then Over else Load(ForCheck(claims), Start(claims.sessionId))])
      case Load(purpose, p) => ProceedLoad(cfg, w, id, purpose, p, fail)
      case SignInRoles(o) =>
        w.(requests := w.requests[id := SignInRow(WithStoredRoles(cfg, w.store, o, fail))])
      case SignInRow(o) => ProceedRow(cfg, w, id, o, fail, random)
      case SignInTokens(o, live) => ProceedTokens(cfg, w, id, o, live)
      case Over => w
  }

  function PutUserRow(cfg: Config, w: World, userId: string, column: RolesColumn): World {
    if cfg.bindUser(userId) != Some(userId) then w
    else
      w.(store := w.store.(users := w.store.users[userId := column]),
         held := if Scan(column).Success? then w.held + {(userId, Scan(column).value)} else w.held)
  }

  /** The foreign key cascades: a user's sessions go with the user. */
  function DeleteUserRow(w: World, userId: string): World {
    w.(store := w.store.(
      users := w.store.users - {userId},
      sessions := map k | k in w.store.sessions && (w.store.sessions[k].userId != userId || userId == "")
                    :: w.store.sessions[k]))
  }

  function Act(cfg: Config, w: World, x: Step): World {
    match x
    case OpenPage(cookie) => Arrive(w, Load(ForPage, Start(cookie)))
    case PresentRefresh(token) => ArriveToken(cfg, w, token, false)
    case PresentCheck(token) => ArriveToken(cfg, w, token, true)
    case SignIn(o) => Arrive(w, SignInRoles(o))
    case Proceed(id, fail, random) => ProceedRequest(cfg, w, id, fail, random)
    case Tick(elapsed) => w.(store := w.store.(now := w.store.now + elapsed))
    case SoftDelete(key) =>
      if key in w.store.sessions then
        w.(store := w.store.(sessions := w.store.sessions[key := w.store.sessions[key].(isDeleted := true)]))
      else w
    case DeleteRow(key) => w.(store := w.store.(sessions := w.store.sessions - {key}))
    case PutUser(userId, column) => PutUserRow(cfg, w, userId, column)
    case DeleteUser(userId) => DeleteUserRow(w, userId)
    case Evict(redisKey) => w.(store := w.store.(cache := w.store.cache - {redisKey}))
    case Overwrite(redisKey, entry) =>
      w.(store := w.store.(cache := w.store.cache[redisKey := entry]), foreign := true)
  }

  function Next(cfg: Config, w: World, x: Step): World {
    Act(cfg, w, x).(step := w.step + 1)
  }

  function Run(cfg: Config, steps: seq<Step>): World {
    if steps == [] then INITIAL
    else Next(cfg, Run(cfg, steps[..|steps| - 1]), steps[|steps| - 1])
  }

  // --- The invariant -------------------------------------------------------

  /** A used identifier and its owner. */
  predicate KeyOk(cfg: Config, w: World, key: string, owner: string) {
    && key != "" && cfg.bindSession(key) == Some(key) && key in w.used
    && (owner != "" ==> cfg.bindUser(owner) == Some(owner))
    && (key in w.store.sessions ==> w.store.sessions[key].userId == owner)
  }

  predicate SightOk(cfg: Config, w: World, live: Sight) {
    KeyOk(cfg, w, live.key, live.owner) && live.at.time <= w.store.now
  }

  predicate ProgressOk(cfg: Config, w: World, p: Progress) {
    match p
    case ReadRoles(_, live) => SightOk(cfg, w, live)
    case ReadUser(key, row, live) => SightOk(cfg, w, live) && key == live.key && row.userId == live.owner
    case WriteCache(_, _, live) => SightOk(cfg, w, live)
    case Done(_, live) => SightOk(cfg, w, live)
    case _ => true
  }

  predicate OptionsOk(cfg: Config, o: AuthorizeOptions, owner: string) {
    (o.userId != "" ==> cfg.bindUser(o.userId).Some?) && owner == OwnerOf(cfg, o.userId)
  }

  predicate RequestOk(cfg: Config, w: World, r: Request) {
    match r
    case Load(_, p) => ProgressOk(cfg, w, p)
    case SignInTokens(o, live) => SightOk(cfg, w, live) && OptionsOk(cfg, o, live.owner)
    case _ => true
  }

  predicate MintedOk(cfg: Config, w: World, m: Minted) {
    && AccessDuration(cfg.lifetimes).Success?
    && m.claims.exp == Timestamp(After(m.at, AccessDuration(cfg.lifetimes).value)) && m.claims.iat == Timestamp(m.at)
    && m.live.at.time <= m.at <= w.store.now
  }

  /** The user a sign-in's row is given, for the identifier the tokens carry. */
  function OwnerOf(cfg: Config, userId: string): string {
    if userId == "" || cfg.bindUser(userId).None? then "" else cfg.bindUser(userId).value
  }

  /** A refresh token names a used session, carries an identifier of its owner and lasts one refresh duration. */
  predicate IssuedOk(cfg: Config, w: World, c: RefreshClaims) {
    && RefreshDuration(cfg.lifetimes).Success?
    && c.exp == c.iat + RefreshDuration(cfg.lifetimes).value.secs && c.iat * SECOND <= w.store.now
    && (c.userId != "" ==> cfg.bindUser(c.userId).Some?)
    && KeyOk(cfg, w, c.sessionId, OwnerOf(cfg, c.userId))
  }

  predicate TablesInv(cfg: Config, w: World) {
    && TablesOk(cfg, w.store)
    && w.store.sessions.Keys <= w.used
    && (forall u | u in w.store.users ::
          Scan(w.store.users[u]).Success? ==> (u, Scan(w.store.users[u]).value) in w.held)
  }

  predicate RequestsInv(cfg: Config, w: World) {
    forall id | id in w.requests :: id < w.step && RequestOk(cfg, w, w.requests[id])
  }

  predicate RecordsInv(cfg: Config, w: World) {
    && (forall m | m in w.minted :: MintedOk(cfg, w, m))
    && (forall c | c in w.issued :: IssuedOk(cfg, w, c))
  }

  // --- As long as nobody else writes to Redis ----------------------------------

  /** Data that may be cached: about a used identifier, its owner, and roles the owner has had. */
  predicate Genuine(cfg: Config, w: World, d: SessionData) {
    DataOk(cfg, w.store, d) && d.id in w.used && (d.userId, d.roles) in w.held
  }

  /** A loaded session is the row that was seen, with its owner and roles the owner has had. */
  predicate SessionOk(w: World, s: Session, live: Sight) {
    && s.id == live.key && s.userId == live.owner
    && (s.userId != "" ==> (s.userId, s.user.roles) in w.held)
  }

  predicate ProgressGenuine(cfg: Config, w: World, p: Progress) {
    match p
    case CheckCached(sessionId, cached) => Genuine(cfg, w, cached) && cached.id == sessionId
    case ReadRoles(cached, live) => Genuine(cfg, w, cached) && cached.id == live.key && cached.userId == live.owner
    case WriteCache(data, session, live) =>
      (ValidSessionData(data) ==> Genuine(cfg, w, data)) && SessionOk(w, session, live)
    case Done(session, live) => SessionOk(w, session, live)
    case _ => true
  }

  predicate RequestGenuine(cfg: Config, w: World, r: Request) {
    r.Load? ==> ProgressGenuine(cfg, w, r.progress)
  }

  predicate CacheGenuine(cfg: Config, w: World) {
    forall key | key in w.store.cache ::
      key == BuildRedisKey(cfg.prefix, w.store.cache[key].data.id) && Genuine(cfg, w, w.store.cache[key].data)
  }

  predicate GenuineInv(cfg: Config, w: World) {
    CacheGenuine(cfg, w) && forall id | id in w.requests :: RequestGenuine(cfg, w, w.requests[id])
  }

  predicate Inv(cfg: Config, w: World) {
    TablesInv(cfg, w) && RequestsInv(cfg, w) && RecordsInv(cfg, w) && (!w.foreign ==> GenuineInv(cfg, w))
  }

  // --- What every step keeps -----------------------------------------------

  /** History only grows, time only advances, and a used identifier keeps its owner and its deadline. */
  predicate Grows(w: World, later: World) {
    && w.used <= later.used && w.held <= later.held
    && w.store.now <= later.store.now && w.step <= later.step
    && (w.foreign ==> later.foreign)
    && (forall k | k in later.store.sessions && k in w.used ::
          && k in w.store.sessions
          && later.store.sessions[k].userId == w.store.sessions[k].userId
          && later.store.sessions[k].expiresAt == w.store.sessions[k].expiresAt
          && (w.store.sessions[k].isDeleted ==> later.store.sessions[k].isDeleted))
  }

  predicate SameTables(w: World, later: World) {
    && later.store.sessions == w.store.sessions && later.store.users == w.store.users
    && later.store.now == w.store.now
    && later.used == w.used && later.held == w.held && later.foreign == w.foreign && later.step == w.step
  }

  /** The row a sign-in adds. */
  predicate AddsRow(cfg: Config, w: World, later: World, id: nat, fail: bool, random: string) {
    && id in w.requests && w.requests[id].SignInRow?
    && cfg.bindSession(random) == Some(random) && random != "" && random !in w.used
    && var row := NewRow(cfg, w.store, w.requests[id].o.userId, random, fail);
       row.Success?
       && SameTables(w.(store := w.store.(sessions := w.store.sessions[random := row.value]), used := w.used + {random}),
                     later)
  }

  /** The only request that touches the tables is a sign-in, and it only adds its row. */
  lemma ProceedTables(cfg: Config, w: World, id: nat, fail: bool, random: string)
    ensures var later := ProceedRequest(cfg, w, id, fail, random);
            SameTables(w, later) || AddsRow(cfg, w, later, id, fail, random)
  {
    hide NewRow, Trip, RefreshAccessToken, SignTokenPair;
  }

  lemma NextGrows(cfg: Config, w: World, x: Step)
    requires w.store.sessions.Keys <= w.used
    ensures Grows(w, Next(cfg, w, x))
    ensures Next(cfg, w, x).store.sessions.Keys <= Next(cfg, w, x).used
  {
    hide NewRow, ProceedRequest, Scan, ExtractToken;
    if x.Proceed? {
      ProceedTables(cfg, w, x.request, x.fail, x.random);
    }
  }

  lemma GrowsKeepsRequest(cfg: Config, w: World, later: World, r: Request)
    requires Grows(w, later)
    ensures RequestOk(cfg, w, r) ==> RequestOk(cfg, later, r)
    ensures RequestGenuine(cfg, w, r) ==> RequestGenuine(cfg, later, r)
  {
  }

  lemma GrowsKeepsRecords(cfg: Config, w: World, later: World)
    requires Grows(w, later)
    ensures forall d | Genuine(cfg, w, d) :: Genuine(cfg, later, d)
    ensures forall m | MintedOk(cfg, w, m) :: MintedOk(cfg, later, m)
    ensures forall c | IssuedOk(cfg, w, c) :: IssuedOk(cfg, later, c)
  {
  }

  lemma TripKeepsOk(cfg: Config, w: World, p: Progress, fail: bool)
    requires Canonical(cfg) && TablesInv(cfg, w) && ProgressOk(cfg, w, p)
    ensures ProgressOk(cfg, w, Trip(cfg, w.store, Stamp(w.step, w.store.now), p, fail).0)
  {
  }

  lemma TripKeepsGenuine(cfg: Config, w: World, p: Progress, fail: bool)
    requires Canonical(cfg) && TablesInv(cfg, w) && CacheGenuine(cfg, w)
    requires ProgressOk(cfg, w, p) && ProgressGenuine(cfg, w, p)
    ensures var (next, cache) := Trip(cfg, w.store, Stamp(w.step, w.store.now), p, fail);
            ProgressGenuine(cfg, w, next) && CacheGenuine(cfg, w.(store := w.store.(cache := cache)))
  {
    match p
    case ReadCache(sessionId) => CachedIsOwn(cfg, w.store, sessionId, fail);
    case CheckCached(_, _) =>
    case ReadRoles(_, _) =>
    case ReadRow(_) =>
    case ReadUser(_, _, _) =>
    case WriteCache(_, _, _) =>
    case _ =>
  }

  lemma NextKeepsTables(cfg: Config, w: World, x: Step)
    requires Canonical(cfg) && TablesInv(cfg, w)
    ensures TablesInv(cfg, Next(cfg, w, x))
  {
    hide TablesInv, ProceedRequest, Canonical;
    if x.Proceed? {
      ProceedTables(cfg, w, x.request, x.fail, x.random);
      RowKeepsTables(cfg, w, ProceedRequest(cfg, w, x.request, x.fail, x.random), x);
    } else {
      OthersKeepTables(cfg, w, x);
    }
  }

  lemma RowKeepsTables(cfg: Config, w: World, later: World, x: Step)
    requires Canonical(cfg) && TablesInv(cfg, w) && x.Proceed?
    requires SameTables(w, later) || AddsRow(cfg, w, later, x.request, x.fail, x.random)
    ensures TablesInv(cfg, later.(step := w.step + 1))
  {
    hide Scan;
  }

  lemma OthersKeepTables(cfg: Config, w: World, x: Step)
    requires TablesInv(cfg, w) && !x.Proceed?
    ensures TablesInv(cfg, Next(cfg, w, x))
  {
    hide ExtractToken, Start;
  }

  /** A step changes at most the request it is about. */
  function Subject(w: World, x: Step): nat {
    if x.Proceed? then x.request else w.step
  }

  lemma NextChangesOneRequest(cfg: Config, w: World, x: Step)
    ensures var later := Next(cfg, w, x);
            && (forall id | id in later.requests && id != Subject(w, x) :: id in w.requests && later.requests[id] == w.requests[id])
            && (Subject(w, x) in later.requests && x.Proceed? ==> Subject(w, x) in w.requests)
  {
    hide NewRow, Trip, RefreshAccessToken, SignTokenPair, ExtractToken, Start;
  }

  /** The request a trip belongs to: the cache and the request are all that changes. */
  lemma NextIsTrip(cfg: Config, w: World, x: Step)
    requires x.Proceed? && x.request in w.requests
    requires w.requests[x.request].Load? && !w.requests[x.request].progress.Done?
    ensures var r := w.requests[x.request];
            var (next, cache) := Trip(cfg, w.store, Stamp(w.step, w.store.now), r.progress, x.fail);
            Next(cfg, w, x) ==
              w.(store := w.store.(cache := cache), requests := w.requests[x.request := Load(r.purpose, next)], step := w.step + 1)
  {
    hide Trip;
  }

  lemma NextKeepsSubject(cfg: Config, w: World, x: Step)
    requires Canonical(cfg) && Inv(cfg, w)
    requires Subject(w, x) in Next(cfg, w, x).requests
    ensures var later := Next(cfg, w, x);
            && RequestOk(cfg, later, later.requests[Subject(w, x)])
            && (!later.foreign ==> RequestGenuine(cfg, later, later.requests[Subject(w, x)]))
  {
    hide Trip, ProgressOk, ProgressGenuine, CacheGenuine, RecordsInv, Canonical, TablesInv;
    var later := Next(cfg, w, x);
    var id := Subject(w, x);
    assert w.store.sessions.Keys <= w.used by { TablesAreUsed(cfg, w); }
    NextGrows(cfg, w, x);
    if x.Proceed? {
      NextChangesOneRequest(cfg, w, x);
      var r := w.requests[id];
      GrowsKeepsRequest(cfg, w, later, r);
      if r.Load? && !r.progress.Done? {
        NextIsTrip(cfg, w, x);
        TripKeepsOk(cfg, w, r.progress, x.fail);
        if !w.foreign {
          TripKeepsGenuine(cfg, w, r.progress, x.fail);
        }
        GrowsKeepsRequest(cfg, w, later, later.requests[id]);
      } else {
        OtherSubject(cfg, w, x);
      }
    } else {
      ArrivalOk(cfg, w, x);
    }
  }

  lemma TablesAreUsed(cfg: Config, w: World)
    requires TablesInv(cfg, w)
    ensures w.store.sessions.Keys <= w.used
  {
  }

  /** A request arrives without a claim to anything. */
  lemma ArrivalOk(cfg: Config, w: World, x: Step)
    requires !x.Proceed? && RequestsInv(cfg, w) && w.step in Next(cfg, w, x).requests
    ensures var later := Next(cfg, w, x);
            RequestOk(cfg, later, later.requests[w.step]) && RequestGenuine(cfg, later, later.requests[w.step])
  {
  }

  /** The steps of a request outside `get_session`. */
  lemma OtherSubject(cfg: Config, w: World, x: Step)
    requires Canonical(cfg) && TablesInv(cfg, w) && x.Proceed? && x.request in w.requests
    requires !(w.requests[x.request].Load? && !w.requests[x.request].progress.Done?)
    requires x.request in Next(cfg, w, x).requests
    ensures var later := Next(cfg, w, x);
            || later.requests[x.request] == w.requests[x.request]
            || (RequestOk(cfg, later, later.requests[x.request]) && RequestGenuine(cfg, later, later.requests[x.request]))
  {
    hide Trip, RefreshAccessToken, SignTokenPair, EnsureSessionActive, WithStoredRoles;
  }

  lemma NextKeepsRequests(cfg: Config, w: World, x: Step)
    requires Canonical(cfg) && Inv(cfg, w)
    ensures var later := Next(cfg, w, x);
            && RequestsInv(cfg, later)
            && (!later.foreign ==> forall id | id in later.requests :: RequestGenuine(cfg, later, later.requests[id]))
  {
    hide Canonical, TablesInv, CacheGenuine, RecordsInv, RequestOk, RequestGenuine;
    var later := Next(cfg, w, x);
    TablesAreUsed(cfg, w);
    NextGrows(cfg, w, x);
    NextChangesOneRequest(cfg, w, x);
    assert later.step == w.step + 1;
    hide Next;
    forall id | id in later.requests
      ensures id < later.step && RequestOk(cfg, later, later.requests[id])
      ensures !later.foreign ==> RequestGenuine(cfg, later, later.requests[id])
    {
      if id == Subject(w, x) {
        NextKeepsSubject(cfg, w, x);
      } else {
        GrowsKeepsRequest(cfg, w, later, w.requests[id]);
      }
    }
  }

  /** Only a request that writes the cache, an eviction, or another client touches it. */
  lemma NextCache(cfg: Config, w: World, x: Step)
    ensures var later := Next(cfg, w, x);
            || later.store.cache == w.store.cache
            || (x.Evict? && later.store.cache == w.store.cache - {x.redisKey})
            || (x.Overwrite? && later.foreign)
            || (&& x.Proceed? && x.request in w.requests
                && w.requests[x.request].Load? && !w.requests[x.request].progress.Done?)
  {
    hide Trip, RefreshAccessToken, SignTokenPair, EnsureSessionActive, WithStoredRoles, NewRow, ExtractToken;
  }

  lemma NextKeepsCache(cfg: Config, w: World, x: Step)
    requires Canonical(cfg) && Inv(cfg, w)
    ensures !Next(cfg, w, x).foreign ==> CacheGenuine(cfg, Next(cfg, w, x))
  {
    hide Canonical, TablesInv, RecordsInv, ProgressOk, ProgressGenuine, Trip, Genuine, Act;
    var later := Next(cfg, w, x);
    TablesAreUsed(cfg, w);
    NextGrows(cfg, w, x);
    GrowsKeepsRecords(cfg, w, later);
    NextCache(cfg, w, x);
    if x.Proceed? && x.request in w.requests && w.requests[x.request].Load? && !w.requests[x.request].progress.Done? {
      assert RequestOk(cfg, w, w.requests[x.request]);
      NextIsTrip(cfg, w, x);
      if !later.foreign {
        assert RequestGenuine(cfg, w, w.requests[x.request]);
        TripKeepsGenuine(cfg, w, w.requests[x.request].progress, x.fail);
        GrowsKeepsRecords(cfg, w.(store := w.store.(cache := later.store.cache)), later);
      }
    }
  }

  /** Only the last step of a refresh or of a sign-in adds to the records of tokens. */
  lemma NextMints(cfg: Config, w: World, x: Step)
    ensures var later := Next(cfg, w, x);
            || (later.minted == w.minted && later.issued == w.issued)
            || (&& x.Proceed? && x.request in w.requests
                && match w.requests[x.request]
                   case Load(ForRefresh(c), Done(session, live)) => later == Mint(cfg, w, x.request, c, false, session, live).(step := w.step + 1)
                   case Load(ForCheck(c), Done(session, live)) => later == Mint(cfg, w, x.request, c, true, session, live).(step := w.step + 1)
                   case SignInTokens(o, live) => later == ProceedTokens(cfg, w, x.request, o, live).(step := w.step + 1)
                   case _ => false)
  {
    hide Trip, EnsureSessionActive, WithStoredRoles, NewRow, ExtractToken, Mint, ProceedTokens, Scan;
  }

  lemma MintOk(cfg: Config, w: World, id: nat, c: RefreshClaims, check: bool, session: Session, live: Sight)
    requires live.at.time <= w.store.now
    ensures var later := Mint(cfg, w, id, c, check, session, live);
            later.issued == w.issued && forall m | m in later.minted && m !in w.minted :: MintedOk(cfg, later, m)
  {
  }

  lemma TokensOk(cfg: Config, w: World, id: nat, o: AuthorizeOptions, live: Sight)
    requires RequestOk(cfg, w, SignInTokens(o, live))
    ensures var later := ProceedTokens(cfg, w, id, o, live);
            && (forall m | m in later.minted && m !in w.minted :: MintedOk(cfg, later, m))
            && (forall c | c in later.issued && c !in w.issued :: IssuedOk(cfg, later, c))
  {
    if RefreshDuration(cfg.lifetimes).Success? {
      TimestampAfter(w.store.now, RefreshDuration(cfg.lifetimes).value);
    }
  }

  lemma NextKeepsRecords(cfg: Config, w: World, x: Step)
    requires Canonical(cfg) && Inv(cfg, w)
    ensures RecordsInv(cfg, Next(cfg, w, x))
  {
    hide GenuineInv, Canonical, TablesInv, Next, Mint, ProceedTokens, Grows;
    var later := Next(cfg, w, x);
    TablesAreUsed(cfg, w);
    NextGrows(cfg, w, x);
    GrowsKeepsRecords(cfg, w, later);
    NextMints(cfg, w, x);
    if x.Proceed? && x.request in w.requests {
      assert RequestOk(cfg, w, w.requests[x.request]);
      match w.requests[x.request]
      case Load(ForRefresh(c), Done(session, live)) => MintOk(cfg, w, x.request, c, false, session, live);
      case Load(ForCheck(c), Done(session, live)) => MintOk(cfg, w, x.request, c, true, session, live);
      case SignInTokens(o, live) => TokensOk(cfg, w, x.request, o, live);
      case _ =>
    }
  }

  lemma NextKeepsInv(cfg: Config, w: World, x: Step)
    requires Canonical(cfg) && Inv(cfg, w)
    ensures Inv(cfg, Next(cfg, w, x))
  {
    hide TablesInv, RequestsInv, RecordsInv, CacheGenuine, RequestGenuine, Next, Canonical;
    NextKeepsTables(cfg, w, x);
    NextKeepsCache(cfg, w, x);
    NextKeepsRequests(cfg, w, x);
    NextKeepsRecords(cfg, w, x);
  }

  lemma {:induction false} RunKeepsInv(cfg: Config, steps: seq<Step>)
    requires Canonical(cfg)
    ensures Inv(cfg, Run(cfg, steps))
    ensures Run(cfg, steps).step == |steps|
    ensures TablesOk(cfg, Run(cfg, steps).store)
    ensures !Run(cfg, steps).foreign ==> StoreOk(cfg, Run(cfg, steps).store)
  {
    if steps != [] {
      hide Act;
      RunKeepsInv(cfg, steps[..|steps| - 1]);
      NextKeepsInv(cfg, Run(cfg, steps[..|steps| - 1]), steps[|steps| - 1]);
    }
  }
}
