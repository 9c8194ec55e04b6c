/**
 How old the roles of a loaded session can be, as long as only the crate writes to Redis. Every role list
 goes back to a round trip that read it from the users table; a cached one is served for one cache lifetime
 after it was written, and reading it back does not prolong that.
 */
module RoleFreshness {
  import opened Wrappers
  import opened Tokens
  import opened Sessions
  import opened SessionRuns
  import opened SessionHistory

  function Lifetime(cfg: Config): nat {
    (if cfg.ttlSeconds == 0 then 1 else cfg.ttlSeconds) * SECOND
  }

  /** Step i is a round trip of this request. */
  predicate TripOf(cfg: Config, steps: seq<Step>, id: nat, i: nat) {
    && i < |steps| && steps[i].Proceed? && steps[i].request == id
    && id in Run(cfg, steps[..i]).requests && Run(cfg, steps[..i]).requests[id].Load?
  }

  function ProgressAt(cfg: Config, steps: seq<Step>, id: nat, i: nat): Progress
    requires TripOf(cfg, steps, id, i)
  {
    Run(cfg, steps[..i]).requests[id].progress
  }

  /** At step i the request read the user's roles, and these were the ones stored. */
  predicate ReadAt(cfg: Config, steps: seq<Step>, id: nat, i: nat, userId: string, roles: RoleList) {
    && TripOf(cfg, steps, id, i)
    && (ProgressAt(cfg, steps, id, i).ReadRoles? || ProgressAt(cfg, steps, id, i).ReadUser?)
    && HadRoles(StateAt(cfg, steps, i), userId, roles)
  }

  /** At step j the request wrote this entry. */
  predicate WroteAt(cfg: Config, steps: seq<Step>, id: nat, j: nat, e: CacheEntry) {
    && TripOf(cfg, steps, id, j)
    && ProgressAt(cfg, steps, id, j).WriteCache? && ProgressAt(cfg, steps, id, j).data == e.data
    && e.until == StateAt(cfg, steps, j).now + Lifetime(cfg)
  }

  /** At step h the request found this entry, not expired. */
  predicate HitAt(cfg: Config, steps: seq<Step>, id: nat, h: nat, e: CacheEntry) {
    && TripOf(cfg, steps, id, h)
    && ProgressAt(cfg, steps, id, h).ReadCache?
    && var s := StateAt(cfg, steps, h);
       var key := BuildRedisKey(cfg.prefix, e.data.id);
       key in s.cache && s.cache[key] == e && s.now < e.until
  }

  /** The writer of the entry had read the roles in it, at an earlier round trip of the same request. */
  ghost predicate Sourced(cfg: Config, steps: seq<Step>, e: CacheEntry) {
    exists id: nat, i: nat, j: nat | i < j ::
      ReadAt(cfg, steps, id, i, e.data.userId, e.data.roles) && WroteAt(cfg, steps, id, j, e)
  }

  ghost predicate WasRead(cfg: Config, steps: seq<Step>, id: nat, userId: string, roles: RoleList) {
    exists i: nat :: ReadAt(cfg, steps, id, i, userId, roles)
  }

  ghost predicate WasHit(cfg: Config, steps: seq<Step>, id: nat, data: SessionData) {
    exists h: nat, e: CacheEntry :: HitAt(cfg, steps, id, h, e) && e.data == data
  }

  ghost predicate ProgressSourced(cfg: Config, steps: seq<Step>, id: nat, p: Progress) {
    match p
    case CheckCached(_, cached) => WasHit(cfg, steps, id, cached)
    case ReadRoles(cached, _) => WasHit(cfg, steps, id, cached)
    case WriteCache(data, session, _) =>
      && data == SessionData(session.id, session.userId, session.user.roles)
      && (data.userId != "" ==> WasRead(cfg, steps, id, data.userId, data.roles))
    case Done(session, _) =>
      session.userId != "" ==>
        || WasRead(cfg, steps, id, session.userId, session.user.roles)
        || WasHit(cfg, steps, id, SessionData(session.id, session.userId, session.user.roles))
    case _ => true
  }

  ghost predicate RequestsSourced(cfg: Config, steps: seq<Step>, w: World) {
    forall id | id in w.requests && w.requests[id].Load? :: ProgressSourced(cfg, steps, id, w.requests[id].progress)
  }

  ghost predicate CacheSourced(cfg: Config, steps: seq<Step>, s: Store) {
    forall key | key in s.cache :: Sourced(cfg, steps, s.cache[key])
  }

  // --- A longer run has the same past ------------------------------------------

  lemma TripStays(cfg: Config, front: seq<Step>, more: seq<Step>, id: nat, i: nat)
    requires i < |front|
    ensures (front + more)[..i] == front[..i] && (front + more)[i] == front[i]
    ensures TripOf(cfg, front + more, id, i) == TripOf(cfg, front, id, i)
  {
  }

  lemma ReadStays(cfg: Config, front: seq<Step>, more: seq<Step>, id: nat, i: nat, userId: string, roles: RoleList)
    requires ReadAt(cfg, front, id, i, userId, roles)
    ensures ReadAt(cfg, front + more, id, i, userId, roles)
  {
    hide Run, HadRoles;
    TripStays(cfg, front, more, id, i);
  }

  lemma WriteStays(cfg: Config, front: seq<Step>, more: seq<Step>, id: nat, j: nat, e: CacheEntry)
    requires WroteAt(cfg, front, id, j, e)
    ensures WroteAt(cfg, front + more, id, j, e)
  {
    hide Run;
    TripStays(cfg, front, more, id, j);
  }

  lemma HitStays(cfg: Config, front: seq<Step>, more: seq<Step>, id: nat, h: nat, e: CacheEntry)
    requires HitAt(cfg, front, id, h, e)
    ensures HitAt(cfg, front + more, id, h, e)
  {
    hide Run;
    TripStays(cfg, front, more, id, h);
  }

  lemma WasReadStays(cfg: Config, front: seq<Step>, more: seq<Step>, id: nat, userId: string, roles: RoleList)
    requires WasRead(cfg, front, id, userId, roles)
    ensures WasRead(cfg, front + more, id, userId, roles)
  {
    hide ReadAt;
    var i: nat :| ReadAt(cfg, front, id, i, userId, roles);
    ReadStays(cfg, front, more, id, i, userId, roles);
  }

  lemma WasHitStays(cfg: Config, front: seq<Step>, more: seq<Step>, id: nat, data: SessionData)
    requires WasHit(cfg, front, id, data)
    ensures WasHit(cfg, front + more, id, data)
  {
    hide HitAt;
    var h: nat, e: CacheEntry :| HitAt(cfg, front, id, h, e) && e.data == data;
    HitStays(cfg, front, more, id, h, e);
  }

  lemma SourcedStays(cfg: Config, front: seq<Step>, more: seq<Step>, e: CacheEntry)
    requires Sourced(cfg, front, e)
    ensures Sourced(cfg, front + more, e)
  {
    hide ReadAt, WroteAt;
    var id: nat, i: nat, j: nat :| i < j
      && ReadAt(cfg, front, id, i, e.data.userId, e.data.roles) && WroteAt(cfg, front, id, j, e);
    ReadStays(cfg, front, more, id, i, e.data.userId, e.data.roles);
    WriteStays(cfg, front, more, id, j, e);
  }

  lemma ProgressStays(cfg: Config, front: seq<Step>, more: seq<Step>, id: nat, p: Progress)
    requires ProgressSourced(cfg, front, id, p)
    ensures ProgressSourced(cfg, front + more, id, p)
  {
    hide WasRead, WasHit;
    match p
    case CheckCached(_, cached) => WasHitStays(cfg, front, more, id, cached);
    case ReadRoles(cached, _) => WasHitStays(cfg, front, more, id, cached);
    case WriteCache(data, _, _) =>
      if data.userId != "" {
        WasReadStays(cfg, front, more, id, data.userId, data.roles);
      }
    case Done(session, _) =>
      if WasRead(cfg, front, id, session.userId, session.user.roles) {
        WasReadStays(cfg, front, more, id, session.userId, session.user.roles);
      } else if session.userId != "" {
        WasHitStays(cfg, front, more, id, SessionData(session.id, session.userId, session.user.roles));
      }
    case _ =>
  }

  // --- One round trip ------------------------------------------------------------

  /** Reading the roles or the user of a known owner reads what is stored. */
  lemma RolesReadAreStored(cfg: Config, s: Store, userId: string, fail: bool)
    requires cfg.bindUser(userId) == Some(userId)
    ensures GetUserRolesFromDb(cfg, s, userId, fail).Success? ==>
              HadRoles(s, userId, GetUserRolesFromDb(cfg, s, userId, fail).value)
    ensures FetchUser(cfg, s, userId, fail).Success? ==>
              HadRoles(s, userId, FetchUser(cfg, s, userId, fail).value.roles)
  {
  }

  lemma HitIsThere(cfg: Config, s: Store, sessionId: string, fail: bool)
    requires CacheOk(cfg, s)
    ensures var cached := GetSessionFromRedis(cfg, s.cache, s.now, sessionId, fail);
            cached.Success? ==>
              var key := BuildRedisKey(cfg.prefix, cached.value.id);
              key in s.cache && s.cache[key].data == cached.value && s.now < s.cache[key].until
  {
    CachedIsOwn(cfg, s, sessionId, fail);
  }

  /** The trip at the end of the run, in terms of the past. */
  lemma TripSourced(cfg: Config, front: seq<Step>, x: Step, id: nat)
    requires Canonical(cfg) && Alone(front)
    requires x.Proceed? && x.request == id && id in Run(cfg, front).requests && Run(cfg, front).requests[id].Load?
    requires ProgressSourced(cfg, front, id, Run(cfg, front).requests[id].progress)
    ensures var w := Run(cfg, front);
            ProgressSourced(cfg, front + [x], id, Trip(cfg, w.store, Stamp(w.step, w.store.now), w.requests[id].progress, x.fail).0)
  {
    hide Run, Canonical, WasRead, WasHit, ProgressSourced, GetSessionFromRedis, GetUserRolesFromDb, FetchUser, FetchSession, CacheOk;
    hide EnsureSessionActive, SetSessionToRedis, HadRoles;
    var w, steps := Run(cfg, front), front + [x];
    var p := w.requests[id].progress;
    var next := Trip(cfg, w.store, Stamp(w.step, w.store.now), p, x.fail).0;
    ProgressStays(cfg, front, [x], id, p);
    AloneKeepsGenuine(cfg, front);
    RunOk(cfg, front, id);
    assert steps[..|front|] == front;
    match p
    case ReadCache(sessionId) =>
      HitIsThere(cfg, w.store, sessionId, x.fail);
      if next.CheckCached? {
        var e := w.store.cache[BuildRedisKey(cfg.prefix, next.cached.id)];
        assert HitAt(cfg, steps, id, |front|, e);
        HitCounts(cfg, steps, id, |front|, e);
      }
      NewTrip(cfg, steps, id, next);
    case CheckCached(_, cached) => CarriesHit(cfg, steps, id, p, next);
    case ReadRoles(cached, live) =>
      RolesReadAreStored(cfg, w.store, cached.userId, x.fail);
      if next.WriteCache? {
        assert ReadAt(cfg, steps, id, |front|, cached.userId, next.data.roles);
        ReadCounts(cfg, steps, id, |front|, cached.userId, next.data.roles);
        NewTrip(cfg, steps, id, next);
      } else {
        CarriesHit(cfg, steps, id, p, next);
      }
    case ReadRow(_) => NewTrip(cfg, steps, id, next);
    case ReadUser(_, row, _) =>
      if next.WriteCache? && row.userId != "" {
        RolesReadAreStored(cfg, w.store, row.userId, x.fail);
        assert ReadAt(cfg, steps, id, |front|, row.userId, next.data.roles);
        ReadCounts(cfg, steps, id, |front|, row.userId, next.data.roles);
      }
      NewTrip(cfg, steps, id, next);
    case WriteCache(_, _, _) => CarriesRead(cfg, steps, id, p, next);
    case _ =>
  }

  lemma RunOk(cfg: Config, steps: seq<Step>, id: nat)
    requires Canonical(cfg) && Alone(steps) && id in Run(cfg, steps).requests && Run(cfg, steps).requests[id].Load?
    ensures CacheOk(cfg, Run(cfg, steps).store)
    ensures match Run(cfg, steps).requests[id].progress
            case ReadRoles(cached, _) => cfg.bindUser(cached.userId) == Some(cached.userId)
            case ReadUser(_, row, _) => row.userId != "" ==> cfg.bindUser(row.userId) == Some(row.userId)
            case _ => true
  {
    hide Run;
    AloneKeepsGenuine(cfg, steps);
    RunRequests(cfg, steps);
    assert RequestOk(cfg, Run(cfg, steps), Run(cfg, steps).requests[id]);
    assert RequestGenuine(cfg, Run(cfg, steps), Run(cfg, steps).requests[id]);
  }

  lemma RunRequests(cfg: Config, steps: seq<Step>)
    requires Canonical(cfg)
    ensures RequestsInv(cfg, Run(cfg, steps))
  {
    RunKeepsInv(cfg, steps);
  }

  lemma HitCounts(cfg: Config, steps: seq<Step>, id: nat, h: nat, e: CacheEntry)
    requires HitAt(cfg, steps, id, h, e)
    ensures WasHit(cfg, steps, id, e.data)
  {
  }

  lemma ReadCounts(cfg: Config, steps: seq<Step>, id: nat, i: nat, userId: string, roles: RoleList)
    requires ReadAt(cfg, steps, id, i, userId, roles)
    ensures WasRead(cfg, steps, id, userId, roles)
  {
  }

  /** A trip whose result is sourced by what it has just seen. */
  lemma NewTrip(cfg: Config, steps: seq<Step>, id: nat, next: Progress)
    requires next.CheckCached? ==> WasHit(cfg, steps, id, next.cached)
    requires next.WriteCache? ==>
               && next.data == SessionData(next.session.id, next.session.userId, next.session.user.roles)
               && (next.data.userId != "" ==> WasRead(cfg, steps, id, next.data.userId, next.data.roles))
    requires !next.ReadRoles? && !next.Done?
    ensures ProgressSourced(cfg, steps, id, next)
  {
  }

  lemma CarriesHit(cfg: Config, steps: seq<Step>, id: nat, p: Progress, next: Progress)
    requires ProgressSourced(cfg, steps, id, p)
    requires p.CheckCached? || p.ReadRoles?
    requires match next
             case ReadRoles(cached, _) => cached == p.cached
             case Done(session, _) => session == SessionOf(p.cached)
             case Failed(_) => true
             case _ => false
    ensures ProgressSourced(cfg, steps, id, next)
  {
  }

  lemma CarriesRead(cfg: Config, steps: seq<Step>, id: nat, p: Progress, next: Progress)
    requires ProgressSourced(cfg, steps, id, p) && p.WriteCache?
    requires next == Done(p.session, p.live)
    ensures ProgressSourced(cfg, steps, id, next)
  {
  }

  // --- Whole runs ------------------------------------------------------------------

  lemma StepKeepsRequests(cfg: Config, front: seq<Step>, x: Step)
    requires Canonical(cfg) && Alone(front) && RequestsSourced(cfg, front, Run(cfg, front))
    ensures RequestsSourced(cfg, front + [x], Run(cfg, front + [x]))
  {
    hide Canonical, ProgressSourced, Run, Next, Trip;
    var w, later := Run(cfg, front), Run(cfg, front + [x]);
    RunAppend(cfg, front, x);
    RunRequests(cfg, front);
    NextChangesOneRequest(cfg, w, x);
    forall id | id in later.requests && later.requests[id].Load?
      ensures ProgressSourced(cfg, front + [x], id, later.requests[id].progress)
    {
      if id in w.requests && w.requests[id].Load? {
        ProgressStays(cfg, front, [x], id, w.requests[id].progress);
      }
      if id == Subject(w, x) {
        if x.Proceed? && w.requests[id].Load? && !w.requests[id].progress.Done? {
          NextIsTrip(cfg, w, x);
          TripSourced(cfg, front, x, id);
        } else {
          OtherSourced(cfg, w, x, front + [x]);
        }
      }
    }
  }

  /** A load begins, or stands still, without anything to source. */
  lemma OtherSourced(cfg: Config, w: World, x: Step, steps: seq<Step>)
    requires RequestsInv(cfg, w) && Subject(w, x) in Next(cfg, w, x).requests && Next(cfg, w, x).requests[Subject(w, x)].Load?
    requires !(x.Proceed? && x.request in w.requests && w.requests[x.request].Load? && !w.requests[x.request].progress.Done?)
    ensures || ProgressSourced(cfg, steps, Subject(w, x), Next(cfg, w, x).requests[Subject(w, x)].progress)
            || (&& Subject(w, x) in w.requests && w.requests[Subject(w, x)].Load?
                && Next(cfg, w, x).requests[Subject(w, x)] == w.requests[Subject(w, x)])
  {
    hide Trip, NewRow, SignTokenPair, RefreshAccessToken, WasRead, WasHit, EnsureSessionActive, WithStoredRoles, Scan;
  }

  lemma StepKeepsCache(cfg: Config, front: seq<Step>, x: Step)
    requires Canonical(cfg) && Alone(front + [x])
    requires RequestsSourced(cfg, front, Run(cfg, front)) && CacheSourced(cfg, front, Run(cfg, front).store)
    ensures CacheSourced(cfg, front + [x], Run(cfg, front + [x]).store)
  {
    hide Canonical, Run, Next, Trip, Sourced, ProgressSourced;
    var w, steps := Run(cfg, front), front + [x];
    var later := Run(cfg, steps);
    RunAppend(cfg, front, x);
    NextCache(cfg, w, x);
    AloneRuns(cfg, steps);
    forall key | key in later.store.cache ensures Sourced(cfg, steps, later.store.cache[key]) {
      var e := later.store.cache[key];
      if key in w.store.cache && w.store.cache[key] == e {
        SourcedStays(cfg, front, [x], e);
      } else {
        NextIsTrip(cfg, w, x);
        NewEntry(cfg, w, w.requests[x.request].progress, x.fail, key);
        NewSourced(cfg, front, x, x.request, e);
      }
    }
  }

  /** Only a write of the cache brings an entry, and with the time of the write. */
  lemma NewEntry(cfg: Config, w: World, p: Progress, fail: bool, key: string)
    requires var cache := Trip(cfg, w.store, Stamp(w.step, w.store.now), p, fail).1;
             key in cache && !(key in w.store.cache && w.store.cache[key] == cache[key])
    ensures var e := Trip(cfg, w.store, Stamp(w.step, w.store.now), p, fail).1[key];
            p.WriteCache? && e == CacheEntry(p.data, w.store.now + Lifetime(cfg)) && ValidSessionData(p.data)
  {
  }

  lemma NewSourced(cfg: Config, front: seq<Step>, x: Step, id: nat, e: CacheEntry)
    requires x.Proceed? && x.request == id && id in Run(cfg, front).requests && Run(cfg, front).requests[id].Load?
    requires var p := Run(cfg, front).requests[id].progress;
             p.WriteCache? && e.data == p.data && ProgressSourced(cfg, front, id, p) && ValidSessionData(p.data)
    requires e.until == Run(cfg, front).store.now + Lifetime(cfg)
    ensures Sourced(cfg, front + [x], e)
  {
    hide Run, HadRoles;
    var steps := front + [x];
    assert steps[..|front|] == front;
    var i: nat :| ReadAt(cfg, front, id, i, e.data.userId, e.data.roles);
    ReadStays(cfg, front, [x], id, i, e.data.userId, e.data.roles);
    assert WroteAt(cfg, steps, id, |front|, e);
  }

  lemma {:induction false} AllSourced(cfg: Config, steps: seq<Step>)
    requires Canonical(cfg) && Alone(steps)
    ensures RequestsSourced(cfg, steps, Run(cfg, steps)) && CacheSourced(cfg, steps, Run(cfg, steps).store)
  {
    if steps != [] {
      hide Canonical, Run, RequestsSourced, CacheSourced;
      var front, x := steps[..|steps| - 1], steps[|steps| - 1];
      assert steps == front + [x];
      AllSourced(cfg, front);
      StepKeepsRequests(cfg, front, x);
      StepKeepsCache(cfg, front, x);
    }
  }

  /** The entry found at step h is the one another request wrote at step j, after reading the roles in it at i. */
  predicate ServedFrom(
    cfg: Config, steps: seq<Step>, id: nat, h: nat, writer: nat, i: nat, j: nat, e: CacheEntry)
  {
    && i < j < h < |steps|
    && ReadAt(cfg, steps, writer, i, e.data.userId, e.data.roles)
    && WroteAt(cfg, steps, writer, j, e)
    && HitAt(cfg, steps, id, h, e)
  }

  /** How long before the hit the roles were read: less than one cache lifetime and the writer's own delay. */
  lemma ServedAge(cfg: Config, steps: seq<Step>, id: nat, h: nat, writer: nat, i: nat, j: nat, e: CacheEntry)
    requires ServedFrom(cfg, steps, id, h, writer, i, j, e)
    ensures HadRoles(StateAt(cfg, steps, i), e.data.userId, e.data.roles)
    ensures StateAt(cfg, steps, h).now - StateAt(cfg, steps, i).now <
            Lifetime(cfg) + (StateAt(cfg, steps, j).now - StateAt(cfg, steps, i).now)
  {
  }

  /**
   The roles of a loaded session are those its own request read from the users table, or come from an entry
   that was found within one cache lifetime of its writing and whose writer had read them there. Being served
   from the cache never makes them last longer.
   */
  lemma RolesAreRecent(cfg: Config, steps: seq<Step>, id: nat, purpose: Purpose, session: Session, live: Sight)
    requires Canonical(cfg) && Alone(steps) && session.userId != ""
    requires id in Run(cfg, steps).requests && Run(cfg, steps).requests[id] == Load(purpose, Done(session, live))
    ensures || WasRead(cfg, steps, id, session.userId, session.user.roles)
            || exists h: nat, writer: nat, i: nat, j: nat, e: CacheEntry ::
                 && ServedFrom(cfg, steps, id, h, writer, i, j, e)
                 && e.data == SessionData(session.id, session.userId, session.user.roles)
  {
    hide Run, Canonical;
    AllSourced(cfg, steps);
    assert ProgressSourced(cfg, steps, id, Done(session, live));
    if !WasRead(cfg, steps, id, session.userId, session.user.roles) {
      DataIsServed(cfg, steps, id, SessionData(session.id, session.userId, session.user.roles));
    }
  }

  lemma DataIsServed(cfg: Config, steps: seq<Step>, id: nat, data: SessionData)
    requires Canonical(cfg) && Alone(steps) && WasHit(cfg, steps, id, data)
    ensures exists h: nat, writer: nat, i: nat, j: nat, e: CacheEntry ::
              ServedFrom(cfg, steps, id, h, writer, i, j, e) && e.data == data
  {
    hide Run, Canonical, HitAt, ServedFrom;
    var h: nat, e: CacheEntry :| HitAt(cfg, steps, id, h, e) && e.data == data;
    HitIsServed(cfg, steps, id, h, e);
  }

  lemma HitIsServed(cfg: Config, steps: seq<Step>, id: nat, h: nat, e: CacheEntry)
    requires Canonical(cfg) && Alone(steps) && HitAt(cfg, steps, id, h, e)
    ensures exists writer: nat, i: nat, j: nat :: ServedFrom(cfg, steps, id, h, writer, i, j, e)
  {
    hide Run, Canonical, HadRoles, ReadAt, WroteAt;
    var front, rest := steps[..h], steps[h..];
    AllSourced(cfg, front);
    assert Sourced(cfg, front, e);
    var writer: nat, i: nat, j: nat :| i < j
      && ReadAt(cfg, front, writer, i, e.data.userId, e.data.roles) && WroteAt(cfg, front, writer, j, e);
    WroteWithin(cfg, front, writer, j, e);
    assert steps == front + rest;
    ReadStays(cfg, front, rest, writer, i, e.data.userId, e.data.roles);
    WriteStays(cfg, front, rest, writer, j, e);
    assert ServedFrom(cfg, steps, id, h, writer, i, j, e);
  }

  lemma WroteWithin(cfg: Config, steps: seq<Step>, id: nat, j: nat, e: CacheEntry)
    requires WroteAt(cfg, steps, id, j, e)
    ensures j < |steps|
  {
  }

  // --- The roles in tokens ---------------------------------------------------------

  /** At step i the sign-in looked for stored roles, and these are what it went on with. */
  predicate SignInReadAt(cfg: Config, steps: seq<Step>, id: nat, i: nat, roles: RoleList) {
    && i < |steps| && steps[i].Proceed? && steps[i].request == id
    && id in Run(cfg, steps[..i]).requests && Run(cfg, steps[..i]).requests[id].SignInRoles?
    && roles == WithStoredRoles(cfg, StateAt(cfg, steps, i), Run(cfg, steps[..i]).requests[id].o, steps[i].fail).roles
  }

  ghost predicate WasSignInRead(cfg: Config, steps: seq<Step>, id: nat, roles: RoleList) {
    exists i: nat :: SignInReadAt(cfg, steps, id, i, roles)
  }

  lemma SignInReadStays(cfg: Config, front: seq<Step>, x: Step, id: nat, roles: RoleList)
    requires WasSignInRead(cfg, front, id, roles)
    ensures WasSignInRead(cfg, front + [x], id, roles)
  {
    hide Run, WithStoredRoles;
    var i: nat :| SignInReadAt(cfg, front, id, i, roles);
    assert (front + [x])[..i] == front[..i];
    assert SignInReadAt(cfg, front + [x], id, i, roles);
  }

  ghost predicate SignInSourced(cfg: Config, steps: seq<Step>, id: nat, r: Request) {
    match r
    case SignInRow(o) => WasSignInRead(cfg, steps, id, o.roles)
    case SignInTokens(o, _) => WasSignInRead(cfg, steps, id, o.roles)
    case _ => true
  }

  ghost predicate SignInsSourced(cfg: Config, steps: seq<Step>, w: World) {
    forall id | id in w.requests :: SignInSourced(cfg, steps, id, w.requests[id])
  }

  lemma StepKeepsSignIns(cfg: Config, front: seq<Step>, x: Step)
    requires Canonical(cfg) && SignInsSourced(cfg, front, Run(cfg, front))
    ensures SignInsSourced(cfg, front + [x], Run(cfg, front + [x]))
  {
    hide Canonical, Run, Next, WasSignInRead;
    var w, later := Run(cfg, front), Run(cfg, front + [x]);
    RunAppend(cfg, front, x);
    RunRequests(cfg, front);
    NextChangesOneRequest(cfg, w, x);
    forall id | id in later.requests ensures SignInSourced(cfg, front + [x], id, later.requests[id]) {
      if id in w.requests {
        SignInStays(cfg, front, x, id, w.requests[id]);
      }
      if id == Subject(w, x) {
        SignInAfter(cfg, w, x);
        if x.Proceed? && w.requests[id].SignInRoles? {
          SignInReads(cfg, front, x, id);
        }
      }
    }
  }

  lemma SignInStays(cfg: Config, front: seq<Step>, x: Step, id: nat, r: Request)
    requires SignInSourced(cfg, front, id, r)
    ensures SignInSourced(cfg, front + [x], id, r)
  {
    hide WasSignInRead;
    match r
    case SignInRow(o) => SignInReadStays(cfg, front, x, id, o.roles);
    case SignInTokens(o, _) => SignInReadStays(cfg, front, x, id, o.roles);
    case _ =>
  }

  lemma SignInReads(cfg: Config, front: seq<Step>, x: Step, id: nat)
    requires x.Proceed? && x.request == id && id in Run(cfg, front).requests && Run(cfg, front).requests[id].SignInRoles?
    ensures WasSignInRead(cfg, front + [x], id,
              WithStoredRoles(cfg, Run(cfg, front).store, Run(cfg, front).requests[id].o, x.fail).roles)
  {
    hide Run, WithStoredRoles;
    assert (front + [x])[..|front|] == front;
    assert SignInReadAt(cfg, front + [x], id, |front|,
      WithStoredRoles(cfg, Run(cfg, front).store, Run(cfg, front).requests[id].o, x.fail).roles);
  }

  /** How a sign-in comes to its options. */
  lemma SignInAfter(cfg: Config, w: World, x: Step)
    requires RequestsInv(cfg, w) && Subject(w, x) in Next(cfg, w, x).requests
    ensures var r := Next(cfg, w, x).requests[Subject(w, x)];
            && (r.SignInRow? ==>
                  && x.Proceed? && x.request in w.requests
                  && (r == w.requests[x.request]
                      || (&& w.requests[x.request].SignInRoles?
                          && r.o == WithStoredRoles(cfg, w.store, w.requests[x.request].o, x.fail))))
            && (r.SignInTokens? ==>
                  && x.Proceed? && x.request in w.requests
                  && (r == w.requests[x.request] || (w.requests[x.request].SignInRow? && r.o == w.requests[x.request].o)))
  {
    hide Trip, NewRow, SignTokenPair, RefreshAccessToken, EnsureSessionActive, WithStoredRoles, Scan, ExtractToken;
  }

  /** Where the roles of a token come from. */
  ghost predicate TokenSourced(cfg: Config, steps: seq<Step>, m: Minted) {
    && m.request < |steps| && UserChecked(steps[m.request], m)
    && if steps[m.request].SignIn? then WasSignInRead(cfg, steps, m.request, m.claims.roles)
       else
         || m.live.owner == ""
         || WasRead(cfg, steps, m.request, m.live.owner, m.claims.roles)
         || WasHit(cfg, steps, m.request, SessionData(m.live.key, m.live.owner, m.claims.roles))
  }

  /** What `check_session` compares. */
  predicate UserChecked(x: Step, m: Minted) {
    match x
    case PresentCheck(Refresh(c)) => c.userId == "" || c.userId == m.live.owner
    case _ => true
  }

  lemma TokenStays(cfg: Config, front: seq<Step>, x: Step, m: Minted)
    requires TokenSourced(cfg, front, m)
    ensures TokenSourced(cfg, front + [x], m)
  {
    hide WasSignInRead, WasRead, WasHit;
    if front[m.request].SignIn? {
      SignInReadStays(cfg, front, x, m.request, m.claims.roles);
    } else if WasRead(cfg, front, m.request, m.live.owner, m.claims.roles) {
      WasReadStays(cfg, front, [x], m.request, m.live.owner, m.claims.roles);
    } else if m.live.owner != "" {
      WasHitStays(cfg, front, [x], m.request, SessionData(m.live.key, m.live.owner, m.claims.roles));
    }
  }

  ghost predicate TokensSourced(cfg: Config, steps: seq<Step>, w: World) {
    forall m | m in w.minted :: TokenSourced(cfg, steps, m)
  }

  lemma NewTokenSourced(cfg: Config, front: seq<Step>, x: Step, m: Minted)
    requires Canonical(cfg) && Alone(front) && m in Next(cfg, Run(cfg, front), x).minted && m !in Run(cfg, front).minted
    requires RequestsSourced(cfg, front, Run(cfg, front)) && SignInsSourced(cfg, front, Run(cfg, front))
    ensures TokenSourced(cfg, front, m)
  {
    hide Canonical, Run, Next, WasSignInRead, WasRead, WasHit;
    var w := Run(cfg, front);
    NextMints(cfg, w, x);
    RequestsAnswer(cfg, front);
    AloneKeepsGenuine(cfg, front);
    var r := w.requests[x.request];
    assert RequestGenuine(cfg, w, r) && SignInSourced(cfg, front, x.request, r);
    if r.Load? {
      assert ProgressSourced(cfg, front, x.request, r.progress);
    }
  }

  lemma {:induction false} AllTokensSourced(cfg: Config, steps: seq<Step>)
    requires Canonical(cfg) && Alone(steps)
    ensures SignInsSourced(cfg, steps, Run(cfg, steps)) && TokensSourced(cfg, steps, Run(cfg, steps))
  {
    if steps != [] {
      hide Canonical, Run, RequestsSourced, CacheSourced, SignInsSourced, TokenSourced, Next;
      var front, x := steps[..|steps| - 1], steps[|steps| - 1];
      assert steps == front + [x];
      AllTokensSourced(cfg, front);
      AllSourced(cfg, front);
      StepKeepsSignIns(cfg, front, x);
      RunAppend(cfg, front, x);
      forall m | m in Run(cfg, steps).minted ensures TokenSourced(cfg, steps, m) {
        if m !in Run(cfg, front).minted {
          NewTokenSourced(cfg, front, x, m);
        }
        TokenStays(cfg, front, x, m);
      }
    }
  }

  /**
   The roles in every access token ever minted: those its sign-in went on with, the stored ones if they could be
   read; or, of a refresh, those read by its own request, or by the writer of an entry found within one cache
   lifetime of its writing. The roles in the presented refresh token play no part. `check_session` mints only for
   a token that names the row's user or none.
   */
  lemma MintedRolesAreRecent(cfg: Config, steps: seq<Step>, m: Minted)
    requires Canonical(cfg) && Alone(steps) && m in Run(cfg, steps).minted
    ensures m.request < |steps| && UserChecked(steps[m.request], m)
    ensures steps[m.request].SignIn? ==> WasSignInRead(cfg, steps, m.request, m.claims.roles)
    ensures !steps[m.request].SignIn? && m.live.owner != "" ==>
              || WasRead(cfg, steps, m.request, m.live.owner, m.claims.roles)
              || exists h: nat, writer: nat, i: nat, j: nat, e: CacheEntry ::
                   && ServedFrom(cfg, steps, m.request, h, writer, i, j, e)
                   && e.data == SessionData(m.live.key, m.live.owner, m.claims.roles)
  {
    hide Run, Canonical;
    AllTokensSourced(cfg, steps);
    assert TokenSourced(cfg, steps, m);
    if WasHit(cfg, steps, m.request, SessionData(m.live.key, m.live.owner, m.claims.roles)) {
      DataIsServed(cfg, steps, m.request, SessionData(m.live.key, m.live.owner, m.claims.roles));
    }
  }
}
