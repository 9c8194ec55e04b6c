/** What holds of every run of SessionRuns, whatever the requests, the application and the clock do. */
module SessionHistory {
  import opened Wrappers
  import Text
  import opened Durations
  import opened Roles
  import opened Tokens
  import opened Sessions
  import opened SessionRuns

  /** The state after the first `i` steps. */
  function StateAt(cfg: Config, steps: seq<Step>, i: nat): Store
    requires i <= |steps|
  {
    Run(cfg, steps[..i]).store
  }

  lemma StateAtPrefix(cfg: Config, steps: seq<Step>, i: nat)
    requires i < |steps|
    ensures StateAt(cfg, steps, i) == StateAt(cfg, steps[..|steps| - 1], i)
  {
    assert steps[..|steps| - 1][..i] == steps[..i];
  }

  lemma StateAtEnd(cfg: Config, steps: seq<Step>)
    ensures StateAt(cfg, steps, |steps|) == Run(cfg, steps).store
  {
    assert steps[..|steps|] == steps;
  }

  // --- A used session only ever moves towards its end ------------------------

  lemma {:induction false} RunGrows(cfg: Config, steps: seq<Step>, i: nat)
    requires Canonical(cfg) && i <= |steps|
    ensures Grows(Run(cfg, steps[..i]), Run(cfg, steps))
    decreases |steps|
  {
    if i == |steps| {
      assert steps[..i] == steps;
    } else {
      var front := steps[..|steps| - 1];
      assert front[..i] == steps[..i];
      RunGrows(cfg, front, i);
      RunKeepsInv(cfg, front);
      NextGrows(cfg, Run(cfg, front), steps[|steps| - 1]);
    }
  }

  /** Deleted softly or for good, or past its deadline: over for a session that existed. */
  predicate Finished(w: World, key: string) {
    key in w.used && !Live(w.store, key)
  }

  /** A finished session stays finished. */
  lemma FinishedForever(cfg: Config, steps: seq<Step>, i: nat, key: string)
    requires Canonical(cfg) && i <= |steps|
    requires Finished(Run(cfg, steps[..i]), key)
    ensures Finished(Run(cfg, steps), key)
  {
    RunGrows(cfg, steps, i);
  }

  // --- Every success rests on a round trip that saw the session live -----------

  /** This request rests on the sight `live`. */
  predicate Rests(r: Request, live: Sight) {
    match r
    case Load(_, ReadRoles(_, l)) => l == live
    case Load(_, ReadUser(_, _, l)) => l == live
    case Load(_, WriteCache(_, _, l)) => l == live
    case Load(_, Done(_, l)) => l == live
    case SignInTokens(_, l) => l == live
    case _ => false
  }

  predicate MintedOn(m: Minted, id: nat, live: Sight) {
    m.request == id && m.live == live
  }

  predicate Stamped(w: World, id: nat, live: Sight) {
    || (id in w.requests && Rests(w.requests[id], live))
    || (exists m | m in w.minted :: MintedOn(m, id, live))
  }

  predicate SawLive(s: Store, live: Sight) {
    s.now == live.at.time && Live(s, live.key) && s.sessions[live.key].userId == live.owner
  }

  lemma NewTripStamp(cfg: Config, w: World, p: Progress, fail: bool, live: Sight)
    requires Rests(Load(ForPage, Trip(cfg, w.store, Stamp(w.step, w.store.now), p, fail).0), live)
    ensures Rests(Load(ForPage, p), live) || (live.at == Stamp(w.step, w.store.now) && SawLive(w.store, live))
  {
  }

  /** A token is only minted for a request that already rests on its sight. */
  lemma NewMint(cfg: Config, w: World, x: Step, m: Minted)
    requires m in Next(cfg, w, x).minted && m !in w.minted
    ensures x.Proceed? && m.request == x.request && x.request in w.requests
    ensures Rests(w.requests[x.request], m.live)
  {
    hide Next;
    NextMints(cfg, w, x);
  }

  lemma NewRest(cfg: Config, w: World, x: Step, id: nat, live: Sight)
    requires RequestsInv(cfg, w)
    requires id in Next(cfg, w, x).requests && Rests(Next(cfg, w, x).requests[id], live)
    requires !(id in w.requests && Rests(w.requests[id], live))
    ensures live.at == Stamp(w.step, w.store.now) && id < w.step
    ensures SawLive(Next(cfg, w, x).store, live)
  {
    NextChangesOneRequest(cfg, w, x);
    RestingProceeds(cfg, w, x, id, live);
    var r := w.requests[id];
    assert RequestOk(cfg, w, r) && id < w.step;
    if r.Load? {
      hide Next, Trip;
      NextIsTrip(cfg, w, x);
      NewTripStamp(cfg, w, r.progress, x.fail, live);
    } else {
      NewRowSeen(cfg, w, x, live);
    }
  }

  lemma RestingProceeds(cfg: Config, w: World, x: Step, id: nat, live: Sight)
    requires RequestsInv(cfg, w)
    requires id in Next(cfg, w, x).requests && Rests(Next(cfg, w, x).requests[id], live)
    requires !(id in w.requests && Rests(w.requests[id], live))
    ensures x.Proceed? && id == x.request && id in w.requests
    ensures w.requests[id].SignInRow? || (w.requests[id].Load? && !w.requests[id].progress.Done?)
  {
    hide Next, Rests, RequestOk;
    NextChangesOneRequest(cfg, w, x);
    if x.Proceed? {
      OthersRest(cfg, w, x, live);
    } else {
      ArrivalRests(cfg, w, x, live);
    }
  }

  /** A request outside these two kinds of step rests on nothing new. */
  lemma OthersRest(cfg: Config, w: World, x: Step, live: Sight)
    requires x.Proceed? && x.request in w.requests && x.request in Next(cfg, w, x).requests
    requires Rests(Next(cfg, w, x).requests[x.request], live)
    ensures || Rests(w.requests[x.request], live) || w.requests[x.request].SignInRow?
            || (w.requests[x.request].Load? && !w.requests[x.request].progress.Done?)
  {
    hide Trip, ProceedRow, RefreshAccessToken, SignTokenPair, EnsureSessionActive, WithStoredRoles;
  }

  lemma ArrivalRests(cfg: Config, w: World, x: Step, live: Sight)
    requires !x.Proceed? && w.step in Next(cfg, w, x).requests && w.step !in w.requests
    ensures !Rests(Next(cfg, w, x).requests[w.step], live)
  {
    hide Scan;
  }

  lemma NewRowSeen(cfg: Config, w: World, x: Step, live: Sight)
    requires x.Proceed? && x.request in w.requests && w.requests[x.request].SignInRow?
    requires x.request in Next(cfg, w, x).requests && Rests(Next(cfg, w, x).requests[x.request], live)
    ensures live.at == Stamp(w.step, w.store.now) && SawLive(Next(cfg, w, x).store, live)
  {
  }

  /** A step adds a sight only by looking at the tables and finding the session live. */
  lemma NewStamp(cfg: Config, w: World, x: Step, id: nat, live: Sight)
    requires RequestsInv(cfg, w) && Stamped(Next(cfg, w, x), id, live)
    ensures || Stamped(w, id, live)
            || (live.at == Stamp(w.step, w.store.now) && id < w.step && SawLive(Next(cfg, w, x).store, live))
  {
    hide Next, Rests, RequestsInv, SawLive;
    var later := Next(cfg, w, x);
    if id in later.requests && Rests(later.requests[id], live) {
      if !(id in w.requests && Rests(w.requests[id], live)) {
        NewRest(cfg, w, x, id, live);
      }
    } else {
      var m :| m in later.minted && MintedOn(m, id, live);
      if m !in w.minted {
        NewMint(cfg, w, x, m);
      }
    }
  }

  /**
   At the end of every run, whatever Redis held on the way: whoever holds a loaded session or an access
   token got it from a request that, after it arrived, saw the row of that session live.
   */
  lemma {:induction false} SuccessWasLive(cfg: Config, steps: seq<Step>, id: nat, live: Sight)
    requires Canonical(cfg) && Stamped(Run(cfg, steps), id, live)
    ensures id < live.at.step < |steps|
    ensures SawLive(StateAt(cfg, steps, live.at.step + 1), live)
  {
    hide Next, Canonical, Inv, SawLive, Stamped, TablesOk, StoreOk;
    assert steps != [] by { NothingStamped(cfg, id, live); }
    var front, x := steps[..|steps| - 1], steps[|steps| - 1];
    RunKeepsInv(cfg, front);
    InvRequests(cfg, Run(cfg, front));
    NewStamp(cfg, Run(cfg, front), x, id, live);
    if Stamped(Run(cfg, front), id, live) {
      SuccessWasLive(cfg, front, id, live);
      StateAtPrefix(cfg, steps, live.at.step + 1);
    } else {
      StateAtEnd(cfg, steps);
    }
  }

  lemma NothingStamped(cfg: Config, id: nat, live: Sight)
    ensures !Stamped(Run(cfg, []), id, live)
  {
  }

  lemma InvRequests(cfg: Config, w: World)
    requires Inv(cfg, w)
    ensures RequestsInv(cfg, w)
  {
  }

  // --- Which session a request asks for ----------------------------------------

  /** The session identifier that an arriving request names. */
  function Asked(x: Step): Option<string> {
    match x
    case OpenPage(cookie) => Some(cookie)
    case PresentRefresh(Refresh(c)) => Some(c.sessionId)
    case PresentCheck(Refresh(c)) => Some(c.sessionId)
    case _ => None
  }

  predicate Names(cfg: Config, sessionId: string, p: Progress) {
    match p
    case ReadCache(s) => s == sessionId
    case CheckCached(s, _) => s == sessionId
    case ReadRow(s) => s == sessionId
    case ReadRoles(_, live) => cfg.bindSession(sessionId) == Some(live.key)
    case ReadUser(_, _, live) => cfg.bindSession(sessionId) == Some(live.key)
    case WriteCache(_, _, live) => cfg.bindSession(sessionId) == Some(live.key)
    case Done(_, live) => cfg.bindSession(sessionId) == Some(live.key)
    case Failed(_) => true
  }

  /** The request still is about what its first step asked for. */
  predicate Answers(cfg: Config, x: Step, r: Request) {
    match r
    case Precheck(claims) => x == PresentCheck(Token.Refresh(claims))
    case Load(purpose, p) => ServesPurpose(x, purpose) && Asked(x).Some? && Names(cfg, Asked(x).value, p)
    case SignInRoles(o) => SameSignIn(x, o)
    case SignInRow(o) => SameSignIn(x, o)
    case SignInTokens(o, _) => SameSignIn(x, o)
    case Over => true
  }

  predicate ServesPurpose(x: Step, purpose: Purpose) {
    match purpose
    case ForPage => x.OpenPage?
    case ForRefresh(claims) => x == PresentRefresh(Token.Refresh(claims))
    case ForCheck(claims) => x == PresentCheck(Token.Refresh(claims))
  }

  predicate SameSignIn(x: Step, o: AuthorizeOptions) {
    x.SignIn? && o.userId == x.o.userId && o.content == x.o.content
  }

  /** The token is about the session and the user of the presented refresh token, or the user of the sign-in. */
  predicate MintedAsAsked(cfg: Config, x: Step, m: Minted) {
    match x
    case PresentRefresh(Refresh(c)) => MintedForToken(cfg, c, m)
    case PresentCheck(Refresh(c)) => MintedForToken(cfg, c, m)
    case SignIn(o) => m.claims.userId == o.userId && m.claims.content == o.content
    case _ => false
  }

  predicate MintedForToken(cfg: Config, c: RefreshClaims, m: Minted) {
    cfg.bindSession(c.sessionId) == Some(m.live.key) && m.claims.userId == c.userId && m.claims.content == "{}"
  }

  predicate AllAnswer(cfg: Config, steps: seq<Step>, w: World) {
    && (forall id | id in w.requests :: id < |steps| && Answers(cfg, steps[id], w.requests[id]))
    && (forall m | m in w.minted :: m.request < |steps| && MintedAsAsked(cfg, steps[m.request], m))
  }

  lemma TripNames(cfg: Config, s: Store, at: Stamp, p: Progress, fail: bool, sessionId: string)
    requires Names(cfg, sessionId, p)
    ensures Names(cfg, sessionId, Trip(cfg, s, at, p, fail).0)
  {
  }

  lemma ProceedAnswers(cfg: Config, w: World, x: Step, asked: Step)
    requires x.Proceed? && x.request in w.requests && Answers(cfg, asked, w.requests[x.request])
    requires x.request in Next(cfg, w, x).requests
    ensures Answers(cfg, asked, Next(cfg, w, x).requests[x.request])
  {
    hide Trip, NewRow, RefreshAccessToken, SignTokenPair, EnsureSessionActive, GetUserRolesFromDb;
    var r := w.requests[x.request];
    if r.Load? && !r.progress.Done? {
      hide Next;
      NextIsTrip(cfg, w, x);
      TripNames(cfg, w.store, Stamp(w.step, w.store.now), r.progress, x.fail, Asked(asked).value);
    }
  }

  lemma ArrivalAnswers(cfg: Config, w: World, x: Step)
    requires !x.Proceed? && w.step !in w.requests && w.step in Next(cfg, w, x).requests
    ensures Answers(cfg, x, Next(cfg, w, x).requests[w.step])
  {
  }

  lemma {:induction false} RequestsAnswer(cfg: Config, steps: seq<Step>)
    requires Canonical(cfg)
    ensures AllAnswer(cfg, steps, Run(cfg, steps))
  {
    if steps != [] {
      hide Canonical, Inv, TablesOk, StoreOk, Next, Answers;
      var front, x := steps[..|steps| - 1], steps[|steps| - 1];
      var w, later := Run(cfg, front), Run(cfg, steps);
      assert later == Next(cfg, w, x);
      RequestsAnswer(cfg, front);
      RunKeepsInv(cfg, front);
      InvRequests(cfg, w);
      NextChangesOneRequest(cfg, w, x);
      forall id | id in later.requests ensures id < |steps| && Answers(cfg, steps[id], later.requests[id]) {
        if id == Subject(w, x) {
          if x.Proceed? {
            ProceedAnswers(cfg, w, x, steps[id]);
          } else {
            ArrivalAnswers(cfg, w, x);
          }
        }
      }
      forall m | m in later.minted
        ensures m.request < |steps| && MintedAsAsked(cfg, steps[m.request], m)
      {
        if m !in w.minted {
          NewMint(cfg, w, x, m);
          MintAnswers(cfg, w, x, steps[m.request], m);
        }
      }
    }
  }

  lemma MintAnswers(cfg: Config, w: World, x: Step, asked: Step, m: Minted)
    requires m in Next(cfg, w, x).minted && m !in w.minted
    requires x.Proceed? && x.request in w.requests && Answers(cfg, asked, w.requests[x.request])
    ensures MintedAsAsked(cfg, asked, m)
  {
    hide Next;
    NextMints(cfg, w, x);
  }

  /** A load or a token is about the row of the identifier that its own request named. */
  lemma SightIsOfAsked(cfg: Config, steps: seq<Step>, id: nat, live: Sight)
    requires Canonical(cfg) && Stamped(Run(cfg, steps), id, live)
    ensures id < |steps|
    ensures if Asked(steps[id]).Some? then cfg.bindSession(Asked(steps[id]).value) == Some(live.key) else steps[id].SignIn?
  {
    hide Run, Canonical;
    RequestsAnswer(cfg, steps);
  }

  // --- Dead sessions stay dead -----------------------------------------------

  /**
   Once a session is finished, whatever anyone writes to Redis and however the round trips interleave: a
   request that arrives later and names it, as cookie or in a refresh token, never loads a session and never
   gets a token, in any continuation of the run.
   */
  lemma DeadStaysDead(cfg: Config, steps: seq<Step>, i: nat, id: nat, key: string, live: Sight)
    requires Canonical(cfg) && i <= id < |steps|
    requires Asked(steps[id]).Some? && cfg.bindSession(Asked(steps[id]).value) == Some(key)
    requires Finished(Run(cfg, steps[..i]), key)
    ensures !Stamped(Run(cfg, steps), id, live)
  {
    hide Canonical, Run, Stamped;
    if Stamped(Run(cfg, steps), id, live) {
      SightIsOfAsked(cfg, steps, id, live);
      NoSightAfterEnd(cfg, steps, i, id, live);
    }
  }

  /** Nor does any other request, a sign-in included, rest on that row. */
  lemma NoSightAfterEnd(cfg: Config, steps: seq<Step>, i: nat, id: nat, live: Sight)
    requires Canonical(cfg) && i <= |steps| && i <= id
    requires Finished(Run(cfg, steps[..i]), live.key)
    ensures !Stamped(Run(cfg, steps), id, live)
  {
    hide Canonical, Run, Stamped;
    if Stamped(Run(cfg, steps), id, live) {
      SuccessWasLive(cfg, steps, id, live);
      var j := live.at.step + 1;
      assert steps[..j][..i] == steps[..i];
      FinishedForever(cfg, steps[..j], i, live.key);
      assert false;
    }
  }

  // --- How long an access token can outlive its session ------------------------

  lemma StampBeforeFinish(cfg: Config, steps: seq<Step>, i: nat, id: nat, live: Sight)
    requires Canonical(cfg) && i <= |steps|
    requires Stamped(Run(cfg, steps), id, live)
    requires Finished(Run(cfg, steps[..i]), live.key)
    ensures live.at.step < i && live.at.time <= StateAt(cfg, steps, i).now
  {
    hide Canonical, Run, Stamped;
    SuccessWasLive(cfg, steps, id, live);
    var j := live.at.step + 1;
    if i < j {
      assert steps[..j][..i] == steps[..i];
      FinishedForever(cfg, steps[..j], i, live.key);
    } else {
      assert steps[..i][..j] == steps[..j];
      RunGrows(cfg, steps[..i], j);
    }
  }

  lemma RunTables(cfg: Config, steps: seq<Step>)
    requires Canonical(cfg)
    ensures Run(cfg, steps).store.sessions.Keys <= Run(cfg, steps).used
  {
    RunKeepsInv(cfg, steps);
  }

  lemma StampBeforeDeadline(cfg: Config, steps: seq<Step>, i: nat, id: nat, live: Sight)
    requires Canonical(cfg) && i <= |steps|
    requires Stamped(Run(cfg, steps), id, live)
    requires live.key in StateAt(cfg, steps, i).sessions && StateAt(cfg, steps, i).sessions[live.key].expiresAt.Some?
    ensures live.at.time <= StateAt(cfg, steps, i).sessions[live.key].expiresAt.value
  {
    hide Canonical, Run, Stamped;
    SuccessWasLive(cfg, steps, id, live);
    var j := live.at.step + 1;
    RunTables(cfg, steps[..j]);
    RunTables(cfg, steps[..i]);
    if i <= j {
      assert steps[..j][..i] == steps[..i];
      RunGrows(cfg, steps[..j], i);
    } else {
      assert steps[..i][..j] == steps[..j];
      RunGrows(cfg, steps[..i], j);
    }
  }

  /** The time a request took from its look at the session to the token. */
  function Latency(m: Minted): int {
    m.at - m.live.at.time
  }

  lemma RunMinted(cfg: Config, steps: seq<Step>, m: Minted)
    requires Canonical(cfg) && m in Run(cfg, steps).minted
    ensures MintedOk(cfg, Run(cfg, steps), m) && Stamped(Run(cfg, steps), m.request, m.live)
  {
    RunKeepsInv(cfg, steps);
    assert MintedOn(m, m.request, m.live);
  }

  /**
   Of every access token ever minted, in every run and whatever Redis held: it runs out at most one access
   duration, and the time its request took, after the session's deadline; and likewise after the moment at
   which the session was first seen soft-deleted, deleted or expired. The session is the one that the
   presented refresh token names, or the new one of a sign-in.
   */
  lemma BoundedRevocation(cfg: Config, steps: seq<Step>, m: Minted, i: nat)
    requires Canonical(cfg) && m in Run(cfg, steps).minted && i <= |steps|
    ensures m.request < |steps| && MintedAsAsked(cfg, steps[m.request], m)
    ensures AccessDuration(cfg.lifetimes).Success? && Latency(m) >= 0
    ensures var bound := AccessDuration(cfg.lifetimes).value.secs * SECOND + Latency(m);
            var s := StateAt(cfg, steps, i);
            && (m.live.key in s.sessions && s.sessions[m.live.key].expiresAt.Some? ==>
                  m.claims.exp * SECOND <= s.sessions[m.live.key].expiresAt.value + bound)
            && (Finished(Run(cfg, steps[..i]), m.live.key) ==> m.claims.exp * SECOND <= s.now + bound)
  {
    hide Canonical, Run, Stamped;
    RunMinted(cfg, steps, m);
    RequestsAnswer(cfg, steps);
    TimestampAfter(m.at, AccessDuration(cfg.lifetimes).value);
    var key := m.live.key;
    var s := StateAt(cfg, steps, i);
    if key in s.sessions && s.sessions[key].expiresAt.Some? {
      StampBeforeDeadline(cfg, steps, i, m.request, m.live);
    }
    if Finished(Run(cfg, steps[..i]), key) {
      StampBeforeFinish(cfg, steps, i, m.request, m.live);
    }
  }

  // --- What the cache says was true ------------------------------------------

  lemma {:induction false} HeldWasStored(cfg: Config, steps: seq<Step>, userId: string, roles: RoleList)
    requires (userId, roles) in Run(cfg, steps).held
    ensures exists i | 0 <= i <= |steps| :: HadRoles(StateAt(cfg, steps, i), userId, roles)
  {
    if steps != [] {
      var front, x := steps[..|steps| - 1], steps[|steps| - 1];
      if (userId, roles) in Run(cfg, front).held {
        HeldWasStored(cfg, front, userId, roles);
        var i :| 0 <= i <= |front| && HadRoles(StateAt(cfg, front, i), userId, roles);
        StateAtPrefix(cfg, steps, i);
      } else {
        NewlyHeld(cfg, Run(cfg, front), x, userId, roles);
        StateAtEnd(cfg, steps);
      }
    }
  }

  predicate HadRoles(s: Store, userId: string, roles: RoleList) {
    userId in s.users && Scan(s.users[userId]) == Success(roles)
  }

  lemma NewlyHeld(cfg: Config, w: World, x: Step, userId: string, roles: RoleList)
    requires (userId, roles) in Next(cfg, w, x).held && (userId, roles) !in w.held
    ensures HadRoles(Next(cfg, w, x).store, userId, roles)
  {
  }

  /** In this run nobody else writes to Redis. */
  predicate Alone(steps: seq<Step>) {
    forall x | x in steps :: !x.Overwrite?
  }

  lemma {:induction false} AloneRuns(cfg: Config, steps: seq<Step>)
    ensures Run(cfg, steps).foreign <==> !Alone(steps)
  {
    if steps != [] {
      var front, x := steps[..|steps| - 1], steps[|steps| - 1];
      AloneRuns(cfg, front);
      assert steps == front + [x];
      NextForeign(cfg, Run(cfg, front), x);
    }
  }

  lemma NextForeign(cfg: Config, w: World, x: Step)
    ensures Next(cfg, w, x).foreign <==> w.foreign || x.Overwrite?
  {
    hide ProceedRequest;
    if x.Proceed? {
      ProceedTables(cfg, w, x.request, x.fail, x.random);
    }
  }

  lemma AloneKeepsGenuine(cfg: Config, steps: seq<Step>)
    requires Canonical(cfg) && Alone(steps)
    ensures GenuineInv(cfg, Run(cfg, steps)) && StoreOk(cfg, Run(cfg, steps).store)
  {
    AloneRuns(cfg, steps);
    RunKeepsInv(cfg, steps);
  }

  /**
   Every entry of a cache that nobody else writes to, in every reachable state: it sits under the key of its
   session, names that session's user as long as the row exists, and lists roles which that user really had.
   */
  lemma CacheIsGenuine(cfg: Config, steps: seq<Step>, redisKey: string)
    requires Canonical(cfg) && Alone(steps) && redisKey in Run(cfg, steps).store.cache
    ensures var s := Run(cfg, steps).store;
            var d := s.cache[redisKey].data;
            && redisKey == BuildRedisKey(cfg.prefix, d.id) && d.userId != ""
            && (d.id in s.sessions ==> s.sessions[d.id].userId == d.userId)
            && (exists i | 0 <= i <= |steps| :: HadRoles(StateAt(cfg, steps, i), d.userId, d.roles))
  {
    hide Run, Canonical;
    AloneKeepsGenuine(cfg, steps);
    var d := Run(cfg, steps).store.cache[redisKey].data;
    HeldWasStored(cfg, steps, d.userId, d.roles);
  }

  /** And so do the sessions that requests load: each is the row that was seen live, for the row's user. */
  lemma LoadedIsGenuine(cfg: Config, steps: seq<Step>, id: nat, purpose: Purpose, session: Session, live: Sight)
    requires Canonical(cfg) && Alone(steps)
    requires id in Run(cfg, steps).requests && Run(cfg, steps).requests[id] == Load(purpose, Done(session, live))
    ensures session.id == live.key && session.userId == live.owner
    ensures session.userId != "" ==>
              exists i | 0 <= i <= |steps| :: HadRoles(StateAt(cfg, steps, i), session.userId, session.user.roles)
  {
    hide Run, Canonical;
    AloneKeepsGenuine(cfg, steps);
    assert RequestGenuine(cfg, Run(cfg, steps), Run(cfg, steps).requests[id]);
    if session.userId != "" {
      HeldWasStored(cfg, steps, session.userId, session.user.roles);
    }
  }

  // --- The two refresh paths -------------------------------------------------

  /**
   For every refresh token ever issued, in every reachable state and for the same failing round trips, as long
   as no other writer put a false entry under the session's key: when the sign-in gave the user identifier in
   its canonical spelling, or none, `check_session` and the refresh endpoint agree; in any other spelling
   `check_session` always refuses the token.
   */
  lemma RefreshPathsAgree(cfg: Config, steps: seq<Step>, c: RefreshClaims, f: Faults)
    requires Canonical(cfg) && c in Run(cfg, steps).issued
    requires !ForeignEntry(cfg, Run(cfg, steps).store, c.sessionId)
    ensures var s, token := Run(cfg, steps).store, Some(Token.Refresh(c));
            var check, refresh := CheckSession(cfg, s, token, false, f), RefreshResponse(cfg, s, token, f);
            && (check.result.Success? <==>
                  refresh.reply.Ok? && (c.userId == "" || cfg.bindUser(c.userId) == Some(c.userId)))
            && (check.result.Success? ==> refresh.reply == Ok(check.result.value) && refresh.cache == check.cache)
  {
    hide Run, CheckSession, GetSession, Live, OwnEntry;
    var s, token := Run(cfg, steps).store, Some(Token.Refresh(c));
    RunIssued(cfg, steps, c);
    RefreshPathsCompared(cfg, s, token, f);
    if RefreshResponse(cfg, s, token, f).reply.Ok? {
      LoadedIsLive(cfg, s, c.sessionId, f);
      LoadedIsOwn(cfg, s, c.sessionId, f);
      OwnWithFault(cfg, s, c.sessionId, f.redisGet);
      LiveIsStored(s, c.sessionId);
    }
  }

  lemma OwnWithFault(cfg: Config, s: Store, sessionId: string, fail: bool)
    requires OwnEntry(cfg, s, sessionId, false)
    ensures OwnEntry(cfg, s, sessionId, fail)
  {
  }

  lemma LiveIsStored(s: Store, key: string)
    ensures Live(s, key) ==> key in s.sessions
  {
  }

  lemma RunIssued(cfg: Config, steps: seq<Step>, c: RefreshClaims)
    requires Canonical(cfg) && c in Run(cfg, steps).issued
    ensures IssuedOk(cfg, Run(cfg, steps), c)
  {
    RunKeepsInv(cfg, steps);
  }

  /** With and without Redis, in every reachable state; the second exception needs another writer. */
  lemma CacheTransparentAlways(cfg: Config, steps: seq<Step>, sessionId: string)
    requires cfg.redis && Canonical(cfg)
    ensures var s := Run(cfg, steps).store;
            SameAnswer(GetSession(cfg, s, sessionId, NO_FAULTS).result,
                       GetSession(cfg.(redis := false), s, sessionId, NO_FAULTS).result)
            <==> !StaleRoles(cfg, s, sessionId) && !ForeignEntry(cfg, s, sessionId)
    ensures Alone(steps) ==> !ForeignEntry(cfg, Run(cfg, steps).store, sessionId)
  {
    hide GetSession, SameAnswer, StaleRoles, ForeignEntry, Inv, Canonical;
    AloneRuns(cfg, steps);
    RunKeepsInv(cfg, steps);
    CacheTransparent(cfg, Run(cfg, steps).store, sessionId);
  }

  lemma RunAppend(cfg: Config, steps: seq<Step>, x: Step)
    ensures Run(cfg, steps + [x]) == Next(cfg, Run(cfg, steps), x)
  {
    assert (steps + [x])[..|steps|] == steps;
  }

  /** A users table that takes the identifiers "u" and "U" for the same. */
  function DemoConfig(): Config {
    Config((s: string) => Some(s), (s: string) => Some(if s == "U" then "u" else s), true, "", 60, Lifetimes("60s", "1y", "HS256", 60))
  }

  const DEMO_ROLES: RoleList := [Value.Text("admin:rw")]

  const DEMO_OPTIONS := AuthorizeOptions("U", "{}", [])

  /** A user with a role asks to sign in, under the other spelling. */
  lemma DemoArrival() returns (steps: seq<Step>)
    ensures var w := Run(DemoConfig(), steps);
            && w.store == Store(map[], map["u" := Items(DEMO_ROLES)], map[], 0) && w.used == {}
            && 1 in w.requests && w.requests[1] == SignInRoles(DEMO_OPTIONS)
    ensures Alone(steps)
  {
    var cfg := DemoConfig();
    steps := [PutUser("u", Items(DEMO_ROLES)), SignIn(DEMO_OPTIONS)];
    var first := steps[..1];
    assert steps == first + [SignIn(DEMO_OPTIONS)] && first == [] + [PutUser("u", Items(DEMO_ROLES))];
    RunAppend(cfg, [], PutUser("u", Items(DEMO_ROLES)));
    RunAppend(cfg, first, SignIn(DEMO_OPTIONS));
  }

  /** The sign-in goes as far as its row; the tokens are still to be signed. */
  lemma DemoSignIn() returns (steps: seq<Step>)
    ensures var w := Run(DemoConfig(), steps);
            && w.store.sessions.Keys == {"s"} && w.store.sessions["s"].userId == "u" && Live(w.store, "s")
            && w.store.users == map["u" := Items(DEMO_ROLES)] && w.store.cache == map[]
            && 1 in w.requests && w.requests[1].SignInTokens?
            && w.requests[1].o.userId == "U" && w.requests[1].live.key == "s"
    ensures Alone(steps)
  {
    hide Run, ProceedTokens, ProceedLoad, RefreshDuration, ArriveToken;
    var cfg := DemoConfig();
    YearParses();
    steps := DemoArrival();
    RunAppend(cfg, steps, Proceed(1, false, ""));
    steps := steps + [Proceed(1, false, "")];
    assert Run(cfg, steps).requests[1].SignInRow? && Run(cfg, steps).requests[1].o.userId == "U";
    RunAppend(cfg, steps, Proceed(1, false, "s"));
    steps := steps + [Proceed(1, false, "s")];
  }

  /** And with its tokens. */
  lemma DemoIssue() returns (steps: seq<Step>, c: RefreshClaims)
    ensures var w := Run(DemoConfig(), steps);
            && w.store.sessions.Keys == {"s"} && w.store.sessions["s"].userId == "u" && Live(w.store, "s")
            && w.store.users == map["u" := Items(DEMO_ROLES)] && w.store.cache == map[]
            && c in w.issued && c.sessionId == "s" && c.userId == "U"
            && ExtractToken(DemoConfig().lifetimes, Token.Refresh(c), w.store.now) == Some(c)
    ensures Alone(steps)
  {
    hide Run, RefreshDuration, AccessDuration, ProceedRow, ProceedLoad, ArriveToken, ExtractToken, Live;
    var cfg := DemoConfig();
    var before := DemoSignIn();
    YearParses();
    MinuteParses();
    RunAppend(cfg, before, Proceed(1, false, ""));
    steps := before + [Proceed(1, false, "")];
    var w := Run(cfg, before);
    c := SignTokenPair(cfg.lifetimes, w.requests[1].o, "s", w.store.now).value.refresh;
    assert Run(cfg, steps).issued == w.issued + [c] && Run(cfg, steps).store == w.store;
    LifetimeOrder(cfg.lifetimes, w.requests[1].o, "s", w.store.now, w.store.now);
  }

  /**
   The two refresh paths do differ: the tokens of this sign-in carry the other spelling, so the refresh
   endpoint takes the refresh token and `check_session` does not.
   */
  lemma SpellingMatters()
    ensures exists cfg: Config, steps: seq<Step>, c: RefreshClaims ::
              && Canonical(cfg) && Alone(steps) && c in Run(cfg, steps).issued
              && RefreshResponse(cfg, Run(cfg, steps).store, Some(Token.Refresh(c)), NO_FAULTS).reply.Ok?
              && CheckSession(cfg, Run(cfg, steps).store, Some(Token.Refresh(c)), false, NO_FAULTS).result.Failure?
  {
    hide Run, AccessDuration, CheckSession;
    var cfg := DemoConfig();
    var steps, c := DemoIssue();
    var s := Run(cfg, steps).store;
    MinuteParses();
    assert LoadFromTables(cfg, s, "s", NO_FAULTS).result.Success?;
    assert RefreshResponse(cfg, s, Some(Token.Refresh(c)), NO_FAULTS).reply.Ok?;
    CacheTransparentAlways(cfg, steps, "s");
    RefreshPathsAgree(cfg, steps, c, NO_FAULTS);
  }

  /** Another writer of the same Redis is believed about who a live session is. */
  lemma ForeignEntryIsTrusted()
    ensures exists cfg: Config, steps: seq<Step>, sessionId: string ::
              && Canonical(cfg) && !Alone(steps)
              && var s := Run(cfg, steps).store;
                 var loaded := GetSession(cfg, s, sessionId, NO_FAULTS).result;
                 && loaded.Success? && cfg.bindSession(sessionId).Some?
                 && loaded.value.id != cfg.bindSession(sessionId).value
                 && loaded.value.userId != s.sessions[cfg.bindSession(sessionId).value].userId
  {
    hide Run, ProceedRequest, ArriveToken;
    var cfg := DemoConfig();
    var before := DemoSignIn();
    var x := Overwrite(BuildRedisKey("", "s"), CacheEntry(SessionData("x", "v", []), Run(cfg, before).store.now + 1));
    RunAppend(cfg, before, x);
    var steps := before + [x];
    assert x in steps;
    assert GetSession(cfg, Run(cfg, steps).store, "s", NO_FAULTS).result.Success?;
  }

  /** Then opens a page: the round trips of one request, with nothing in between, cache the session. */
  lemma DemoOpenPage(before: seq<Step>) returns (steps: seq<Step>)
    requires Alone(before)
    requires var w := Run(DemoConfig(), before);
             && w.store.sessions.Keys == {"s"} && w.store.sessions["s"].userId == "u" && Live(w.store, "s")
             && w.store.users == map["u" := Items(DEMO_ROLES)] && w.store.cache == map[]
    ensures var s := Run(DemoConfig(), steps).store;
            && s == Run(DemoConfig(), before).store.(cache := s.cache)
            && BuildRedisKey("", "s") in s.cache
            && s.cache[BuildRedisKey("", "s")] == CacheEntry(SessionData("s", "u", DEMO_ROLES), s.now + 60 * SECOND)
    ensures Alone(steps)
  {
    hide Run, ProceedRow, ProceedTokens, Mint, ArriveToken, RefreshDuration;
    var cfg := DemoConfig();
    var start := Run(cfg, before);
    var id := start.step;
    RunAppend(cfg, before, OpenPage("s"));
    steps := before + [OpenPage("s")];
    var row := start.store.sessions["s"];
    var trips := [ReadCache("s"), ReadRow("s"), ReadUser("s", row, Sight(Stamp(id + 2, start.store.now), "s", "u"))];
    for i := 0 to 3
      invariant Alone(steps)
      invariant var w := Run(cfg, steps);
                w.step == id + 1 + i && w.store == start.store && id in w.requests
                && (if i < 3 then w.requests[id] == Load(ForPage, trips[i])
                    else w.requests[id].Load? && w.requests[id].progress.WriteCache?
                         && w.requests[id].progress.data == SessionData("s", "u", DEMO_ROLES))
    {
      RunAppend(cfg, steps, Proceed(id, false, ""));
      steps := steps + [Proceed(id, false, "")];
    }
    RunAppend(cfg, steps, Proceed(id, false, ""));
    steps := steps + [Proceed(id, false, "")];
  }

  /**
   The exception is real: when the user's roles are then taken away, the cached session still answers
   with them and the tables do not.
   */
  lemma StaleRolesHappen()
    ensures exists cfg: Config, steps: seq<Step>, sessionId: string ::
              && cfg.redis && Canonical(cfg) && Alone(steps)
              && StaleRoles(cfg, Run(cfg, steps).store, sessionId)
  {
    var cfg := DemoConfig();
    var signedIn := DemoSignIn();
    var visited := DemoOpenPage(signedIn);
    RunAppend(cfg, visited, PutUser("u", Items([])));
    var steps := visited + [PutUser("u", Items([]))];
    assert StaleRoles(cfg, Run(cfg, steps).store, "s");
  }

  lemma MinuteParses()
    ensures AccessDuration(DemoConfig().lifetimes).Success?
  {
    ParseDecimal(60, "s", DEFAULT_ACCESS_TOKEN_DURATION);
    assert Text.Decimal(6) == "6" && Text.Decimal(60) == "60";
    assert Text.Decimal(60) + "s" == "60s";
  }

  lemma YearParses()
    ensures RefreshDuration(DemoConfig().lifetimes).Success?
  {
    ParseDecimal(1, "y", DEFAULT_REFRESH_TOKEN_DURATION);
    assert Text.Decimal(1) + "y" == "1y";
  }
}
