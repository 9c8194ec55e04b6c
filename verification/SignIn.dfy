/**
 The two parts joined: the session that an OAuth sign-in leaves in the browser is the one that its later
 requests load.
 */
module SignInEndToEnd {
  import opened Wrappers
  import opened Roles
  import opened Tokens
  import opened Sessions
  import opened Cookies
  import opened OAuth
  import opened OAuthRuns

  lemma SessionNameApart(d: Deployment)
    requires Sound(d)
    ensures !Transient(d.jar, d.session.name) && d.session.name != d.jar.FlowIntent().name
  {
    var names := Names(d.jar, d.session);
    assert forall i | 0 <= i < 7 :: names[i] != names[7];
    assert names[0] == d.jar.State().name && names[1] == d.jar.PkceCodeVerifier().name && names[2] == d.jar.Nonce().name;
    assert names[3] == d.jar.CallbackUrl().name && names[4] == d.jar.Flow().name && names[5] == d.jar.FlowIntent().name;
    assert names[6] == d.jar.ConnectResource().name && names[7] == d.session.name;
  }

  /** A callback that signs in. */
  predicate SignsIn(d: Deployment, f: Flight, sessionId: string) {
    && f.CallbackFlight?
    && CallbackResultOf(d, f.p, f.q, f.ext, f.cookies).reply.SignedIn?
    && f.ext.authorized == Some(sessionId)
  }

  lemma TrackCleared(d: Deployment, f: Flight, c: Option<Stored>, now: int)
    requires Sound(d) && f.CallbackFlight?
    ensures Track(c, now, StateHeaders(d, f.p, f.cookies), d.session.name) == c
    ensures Track(c, now, if UsesCheck(f.p, Pkce) then Expiring(d.jar.PkceCodeVerifier()) else [], d.session.name) == c
  {
    hide Track, Expiring, Sound, ReadCookie;
    var name := d.session.name;
    SessionNameApart(d);
    TrackNothing(c, now, name);
    TrackExpiring(c, now, d.jar.Flow(), name);
    TrackExpiring(c, now, d.jar.State(), name);
    TrackExpiring(c, now, d.jar.PkceCodeVerifier(), name);
    TrackAppend(c, now, if ReadCookie(f.cookies, d.jar.Flow().name) == "token" then Expiring(d.jar.Flow()) else [],
                if UsesCheck(f.p, State) then Expiring(d.jar.State()) else [], name);
  }

  lemma TrackSignedIn(d: Deployment, f: Flight, sessionId: string, c: Option<Stored>, now: int)
    requires Sound(d) && Renders(d.session) && HeaderSafe(sessionId) && sessionId != ""
    requires SignsIn(d, f, sessionId)
    ensures Track(c, now, CompletionHeaders(d, f.ext, f.cookies), d.session.name) == Made(now, d.session, sessionId)
  {
    hide Track, Expiring, Setting, Sound, IntentAccepted, Made, Renders, HeaderSafe, Completes, Reaches, FormOf, ReadCookie;
    var name := d.session.name;
    SessionNameApart(d);
    var first := if d.secret != "" then Expiring(d.jar.FlowIntent()) else [];
    TrackNothing(c, now, name);
    TrackExpiring(c, now, d.jar.FlowIntent(), name);
    TrackAppend(c, now, first, Setting(d.session, sessionId), name);
    TrackSetting(Track(c, now, first, name), now, d.session, sessionId, name);
  }

  /** The session cookie survives the clearing of the others at the end of the same response. */
  lemma SignInLeaves(d: Deployment, f: Flight, sessionId: string, b: Browser, now: int)
    requires Sound(d) && Renders(d.session) && HeaderSafe(sessionId) && sessionId != ""
    requires SignsIn(d, f, sessionId)
    ensures Lookup(ReceiveAll(b, now, HeadersOf(d, f)), d.session.name) == Made(now, d.session, sessionId)
  {
    hide Track, ExpiringOauthFlow, StateHeaders, CompletionHeaders, Sound, Transient, Receive, ReceiveAll, Lookup;
    hide Made, Renders, HeaderSafe, Completes, CompletionReply, FormOf, Expiring;
    var name := d.session.name;
    var c := Lookup(b, name);
    var first := StateHeaders(d, f.p, f.cookies);
    var second := if UsesCheck(f.p, Pkce) then Expiring(d.jar.PkceCodeVerifier()) else [];
    var third := CompletionHeaders(d, f.ext, f.cookies);
    assert InnerHeaders(d, f.p, f.q, f.ext, f.cookies) == first + (second + third);
    SessionNameApart(d);
    TrackIsReceive(b, now, HeadersOf(d, f), name);
    TrackAppend(c, now, first + (second + third), ExpiringOauthFlow(d.jar), name);
    TrackAppend(c, now, first, second + third, name);
    TrackCleared(d, f, c, now);
    TrackAppend(c, now, second, third, name);
    TrackSignedIn(d, f, sessionId, c, now);
    TrackExpiringFlow(d, Made(now, d.session, sessionId), now, name);
  }

  /** Any other callback leaves the session cookie alone. */
  lemma OthersKeepSession(d: Deployment, f: Flight, b: Browser, now: int)
    requires Sound(d) && f.CallbackFlight?
    requires !CallbackResultOf(d, f.p, f.q, f.ext, f.cookies).reply.SignedIn?
    ensures Lookup(ReceiveAll(b, now, HeadersOf(d, f)), d.session.name) == Lookup(b, d.session.name)
  {
    hide Track, ExpiringOauthFlow, StateHeaders, CompletionHeaders, Sound, Transient, Receive, ReceiveAll, Lookup;
    hide FormOf, Expiring, StateAccepted;
    var name := d.session.name;
    var c := Lookup(b, name);
    var first := StateHeaders(d, f.p, f.cookies);
    var second := if UsesCheck(f.p, Pkce) then Expiring(d.jar.PkceCodeVerifier()) else [];
    var third := if Completes(f.p, f.ext) then CompletionHeaders(d, f.ext, f.cookies) else [];
    SessionNameApart(d);
    TrackIsReceive(b, now, HeadersOf(d, f), name);
    TrackAppend(c, now, InnerHeaders(d, f.p, f.q, f.ext, f.cookies), ExpiringOauthFlow(d.jar), name);
    TrackAppend(c, now, first, second + third, name);
    TrackAppend(c, now, first, [], name);
    TrackCleared(d, f, c, now);
    TrackAppend(c, now, second, third, name);
    TrackNothing(c, now, name);
    if Completes(f.p, f.ext) && Reaches(d, f.p, f.q, f.cookies) && f.q.error == "" && f.q.code != "" {
      TrackNotSignedIn(d, f, c, now);
    }
    TrackExpiringFlow(d, c, now, name);
  }

  lemma TrackNotSignedIn(d: Deployment, f: Flight, c: Option<Stored>, now: int)
    requires Sound(d) && f.CallbackFlight? && Reaches(d, f.p, f.q, f.cookies) && Completes(f.p, f.ext)
    requires !CallbackResultOf(d, f.p, f.q, f.ext, f.cookies).reply.SignedIn?
    ensures Track(c, now, CompletionHeaders(d, f.ext, f.cookies), d.session.name) == c
  {
    hide Track, Expiring, Setting, Sound, IntentAccepted, Reaches, FormOf, ReadCookie;
    var name := d.session.name;
    SessionNameApart(d);
    ReachedGoesOn(d, f);
    var first := if d.secret != "" then Expiring(d.jar.FlowIntent()) else [];
    var second := if IntentAccepted(d, f.cookies) then Expiring(d.jar.ConnectResource()) else [];
    TrackNothing(c, now, name);
    TrackExpiring(c, now, d.jar.FlowIntent(), name);
    TrackExpiring(c, now, d.jar.ConnectResource(), name);
    TrackAppend(c, now, first, second, name);
  }

  lemma ReachedGoesOn(d: Deployment, f: Flight)
    requires f.CallbackFlight? && Reaches(d, f.p, f.q, f.cookies)
    ensures f.q.error == "" && f.q.code != ""
  {
  }

  /** And is sent with every request until it is over age. */
  lemma SignInIsSent(d: Deployment, w: World, k: nat, sessionId: string, age: nat)
    requires Sound(d) && Renders(d.session) && HeaderSafe(sessionId) && sessionId != ""
    requires k in w.flights && SignsIn(d, w.flights[k], sessionId) && Within(d.session, age)
    ensures ReadCookie(Carried(Next(d, Next(d, w, Deliver(k)), Tick(age))), d.session.name) == sessionId
  {
    hide Sound, ReceiveAll, HeadersOf, SignsIn, Renders, HeaderSafe;
    SignInLeaves(d, w.flights[k], sessionId, w.browser, w.now);
  }

  /** What the callback is answered by `authorize` in the sessions part. */
  function Answer(a: Authorized, sessionId: string): Option<string> {
    if a.result.Success? then Some(sessionId) else None
  }

  /**
   From the provider's redirect to the next page: when the callback signs the resolved user in and its response
   arrives, a protected page requested with the browser's cookie, at any later moment before cookie and row run
   out, is served to that user, and to nobody whose stored roles do not match the page's.
   */
  lemma SignedInUserIsServed(
    d: Deployment, w: World, k: nat, age: nat, cfg: Config, s: Store, o: AuthorizeOptions, sessionId: string, lag: nat,
    insertFault: bool, t: nat, lower: Lower, routeRoles: seq<string>)
    requires Sound(d) && Renders(d.session) && HeaderSafe(sessionId) && Within(d.session, age)
    requires k in w.flights && w.flights[k].CallbackFlight?
    requires CallbackResultOf(d, w.flights[k].p, w.flights[k].q, w.flights[k].ext, w.flights[k].cookies).reply.SignedIn?
    requires Canonical(cfg) && StoreOk(cfg, s) && Unused(cfg, s, sessionId)
    requires w.flights[k].ext.authorized == Answer(Authorize(cfg, s, o, sessionId, lag, false, insertFault), sessionId)
    requires w.flights[k].ext.resolved == Some(o.userId) && GetUserRolesFromDb(cfg, s, o.userId, false).Success?
    requires RefreshDuration(cfg.lifetimes).Success?
    requires s.now + lag <= t <= After(s.now, RefreshDuration(cfg.lifetimes).value)
    ensures var later := s.(sessions := Authorize(cfg, s, o, sessionId, lag, false, insertFault).sessions, now := t);
            var cookie := ReadCookie(Carried(Next(d, Next(d, w, Deliver(k)), Tick(age))), d.session.name);
            var roles := GetUserRolesFromDb(cfg, s, o.userId, false).value;
            var loaded := GetSession(cfg, later, cookie, NO_FAULTS).result;
            && cookie == sessionId && cfg.bindUser(o.userId).Some?
            && loaded.Success? && loaded.value.user == User(cfg.bindUser(o.userId).value, roles)
            && DecideWeb(cfg, later, lower, routeRoles, false, cookie, NO_FAULTS).reply ==
               if routeRoles != [] && !Decide(lower, routeRoles, Strings(roles)).hasRole then Forbidden else Pass
  {
    hide Sound, Renders, HeaderSafe, Within, Carried, Next, ReadCookie, Canonical, StoreOk, Authorize, GetSession, Decide;
    hide RefreshResponse, CheckSession, FormatRoles, Strings, RefreshDuration;
    var f := w.flights[k];
    SignedInMeans(d, f);
    SignInIsSent(d, w, k, sessionId, age);
    AuthorizeThenUse(cfg, s, o, sessionId, lag, insertFault, t);
    DecideFormatted(lower, routeRoles, GetUserRolesFromDb(cfg, s, o.userId, false).value);
  }

  lemma SignedInMeans(d: Deployment, f: Flight)
    requires f.CallbackFlight? && CallbackResultOf(d, f.p, f.q, f.ext, f.cookies).reply.SignedIn?
    ensures f.ext.authorized.Some? && Completes(f.p, f.ext) && f.ext.resolved.value != ""
  {
    hide IntentAccepted, FormOf;
  }
}
