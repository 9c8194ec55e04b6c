/**
 One browser and any number of OAuth round trips, in any number of tabs. A response is delivered some
 time after its request was handled, at most once and in any order, or never; requests carry the
 cookies the browser holds when they are sent.
 */
module OAuthRuns {
  import opened Wrappers
  import opened Text
  import opened Base64Url
  import opened Cookies
  import opened OAuth

  /** A start request, under the number of the step that sent it. */
  datatype StartInfo = StartInfo(step: nat, p: Provider, r: StartRequest)

  /** A response on its way, with the cookies its request carried. */
  datatype Flight =
    | StartFlight(info: StartInfo, cookies: map<string, string>)
    | CallbackFlight(p: Provider, q: CallbackRequest, ext: External, cookies: map<string, string>)

  function HeadersOf(d: Deployment, f: Flight): seq<CookieHeader> {
    match f
    case StartFlight(info, cookies) => StartHeaders(d, info.p, info.r, cookies)
    case CallbackFlight(p, q, ext, cookies) => CallbackHeaders(d, p, q, ext, cookies)
  }

  /** The start whose cookies the browser took last, and when it did. */
  datatype Latest = Latest(info: StartInfo, at: int)

  /** Times are in seconds. */
  datatype World = World(
    browser: Browser, now: int, flights: map<nat, Flight>, latest: Option<Latest>, step: nat)

  const INITIAL := World(map[], 0, map[], None, 0)

  datatype Step =
    | SendStart(p: Provider, r: StartRequest)
    | SendCallback(p: Provider, q: CallbackRequest, ext: External)
    | Deliver(flight: nat)
    | Lose(flight: nat)
    | Tick(seconds: nat)
    | Forget(name: string)

  function DeliverFlight(d: Deployment, w: World, k: nat): World {
    if k !in w.flights then w
    else
      var f := w.flights[k];
      w.(browser := ReceiveAll(w.browser, w.now, HeadersOf(d, f)),
         flights := w.flights - {k},
         latest := if f.StartFlight? && Touches(f.info.p, f.info.r) then Some(Latest(f.info, w.now)) else w.latest)
  }

  function Act(d: Deployment, w: World, x: Step): World {
    match x
    case SendStart(p, r) =>
      w.(flights := w.flights[w.step := StartFlight(StartInfo(w.step, p, r), Sent(w.browser, w.now))])
    case SendCallback(p, q, ext) =>
      w.(flights := w.flights[w.step := CallbackFlight(p, q, ext, Sent(w.browser, w.now))])
    case Deliver(k) => DeliverFlight(d, w, k)
    case Lose(k) => w.(flights := w.flights - {k})
    case Tick(seconds) => w.(now := w.now + seconds)
    case Forget(name) => w.(browser := w.browser - {name})
  }

  function Next(d: Deployment, w: World, x: Step): World {
    Act(d, w, x).(step := w.step + 1)
  }

  function Run(d: Deployment, steps: seq<Step>): World {
    if steps == [] then INITIAL
    else Next(d, Run(d, steps[..|steps| - 1]), steps[|steps| - 1])
  }

  // --- What one response does to one cookie ----------------------------------

  function Lookup(b: Browser, name: string): Option<Stored> {
    if name in b then Some(b[name]) else None
  }

  /** What is left of a header that names the cookie. */
  function Kept(now: int, h: CookieHeader): Option<Stored> {
    match h.maxAge
    case Some(seconds) => if seconds <= 0 then None else Some(Stored(h.value, Some(now + seconds)))
    case None => Some(Stored(h.value, None))
  }

  /** What is left of a cookie that is set. */
  function Made(now: int, opt: CookieOption, value: string): Option<Stored> {
    Kept(now, CookieHeader(opt, value, MaxAge(opt.maxAge)))
  }

  /** The store, seen through one name: the last header with that name decides. */
  function Track(c: Option<Stored>, now: int, hs: seq<CookieHeader>, name: string): Option<Stored> {
    if hs == [] then c
    else
      var h := hs[|hs| - 1];
      if h.option.name == name then Kept(now, h) else Track(c, now, hs[..|hs| - 1], name)
  }

  lemma {:induction false} TrackIsReceive(b: Browser, now: int, hs: seq<CookieHeader>, name: string)
    ensures Lookup(ReceiveAll(b, now, hs), name) == Track(Lookup(b, name), now, hs, name)
  {
    if hs != [] {
      TrackIsReceive(b, now, hs[..|hs| - 1], name);
    }
  }

  lemma {:induction false} TrackAppend(c: Option<Stored>, now: int, xs: seq<CookieHeader>, ys: seq<CookieHeader>, name: string)
    ensures Track(c, now, xs + ys, name) == Track(Track(c, now, xs, name), now, ys, name)
  {
    if ys == [] {
      assert xs + ys == xs;
    } else {
      TrackAppend(c, now, xs, ys[..|ys| - 1], name);
      assert (xs + ys)[..|xs + ys| - 1] == xs + ys[..|ys| - 1];
    }
  }

  lemma TrackSetting(c: Option<Stored>, now: int, opt: CookieOption, value: string, name: string)
    ensures opt.name != name ==> Track(c, now, Setting(opt, value), name) == c
    ensures opt.name == name && Renders(opt) && HeaderSafe(value) ==> Track(c, now, Setting(opt, value), name) == Made(now, opt, value)
    ensures !HeaderSafe(value) ==> Track(c, now, Setting(opt, value), name) == c
  {
  }

  lemma TrackExpiring(c: Option<Stored>, now: int, opt: CookieOption, name: string)
    ensures opt.name != name ==> Track(c, now, Expiring(opt), name) == c
    ensures opt.name == name && Renders(opt) ==> Track(c, now, Expiring(opt), name) == None
  {
  }

  // --- The four cookies that decide a callback ---------------------------------

  /** The deployment's cookies are told apart, and signatures and UUIDs are plain text. */
  ghost predicate Sound(d: Deployment) {
    && Usable(d.jar, d.session)
    && (forall intent, secret :: HeaderSafe(d.hmac(intent, secret)))
    && (forall s :: d.isUuid(s) ==> HeaderSafe(s))
  }

  predicate Transient(jar: CookieJar, name: string) {
    || name == jar.State().name || name == jar.PkceCodeVerifier().name || name == jar.Nonce().name
    || name == jar.CallbackUrl().name || name == jar.Flow().name || name == jar.ConnectResource().name
  }

  lemma TrackExpiringFlow(d: Deployment, c: Option<Stored>, now: int, name: string)
    requires Sound(d)
    ensures Track(c, now, ExpiringOauthFlow(d.jar), name) == if Transient(d.jar, name) then None else c
  {
    hide Track, Expiring, Renders;
    var jar := d.jar;
    var a := Expiring(jar.State());
    var ab := a + Expiring(jar.PkceCodeVerifier());
    var abc := ab + Expiring(jar.Nonce());
    var abcd := abc + Expiring(jar.CallbackUrl());
    var abcde := abcd + Expiring(jar.Flow());
    TrackExpiring(c, now, jar.State(), name);
    TrackAppend(c, now, a, Expiring(jar.PkceCodeVerifier()), name);
    TrackExpiring(Track(c, now, a, name), now, jar.PkceCodeVerifier(), name);
    TrackAppend(c, now, ab, Expiring(jar.Nonce()), name);
    TrackExpiring(Track(c, now, ab, name), now, jar.Nonce(), name);
    TrackAppend(c, now, abc, Expiring(jar.CallbackUrl()), name);
    TrackExpiring(Track(c, now, abc, name), now, jar.CallbackUrl(), name);
    TrackAppend(c, now, abcd, Expiring(jar.Flow()), name);
    TrackExpiring(Track(c, now, abcd, name), now, jar.Flow(), name);
    TrackAppend(c, now, abcde, Expiring(jar.ConnectResource()), name);
    TrackExpiring(Track(c, now, abcde, name), now, jar.ConnectResource(), name);
  }

  lemma SignedIntentSafe(d: Deployment)
    requires Sound(d)
    ensures HeaderSafe(SignedIntent(d, CONNECT)) && SignedIntent(d, CONNECT) != ""
  {
    assert HeaderSafe(CONNECT + "|");
  }

  lemma SignedIntentVerifies(d: Deployment)
    ensures VerifyIntent(d, SignedIntent(d, CONNECT), CONNECT)
  {
    assert '|' !in CONNECT;
    OnlySignedIntentVerifies(d, SignedIntent(d, CONNECT), CONNECT);
  }

  lemma TrackConnect(d: Deployment, r: StartRequest, c: Option<Stored>, now: int, name: string)
    requires Sound(d)
    ensures var resource := Trim(r.resourceId);
            Track(c, now, ConnectHeaders(d, r), name) ==
            if r.connect != "1" && (name == d.jar.FlowIntent().name || name == d.jar.ConnectResource().name) then None
            else if name == d.jar.FlowIntent().name && d.secret != "" then Made(now, d.jar.FlowIntent(), SignedIntent(d, CONNECT))
            else if name == d.jar.ConnectResource().name && resource != "" && !ConnectRefused(d, r) then
              Made(now, d.jar.ConnectResource(), resource)
            else c
  {
    hide Track, Setting, Expiring, Renders, SignedIntent, Trim, HeaderSafe, Made;
    var resource := Trim(r.resourceId);
    var intent := d.jar.FlowIntent();
    SignedIntentSafe(d);
    assert Track(c, now, [], name) == c by { TrackNothing(c, now, name); }
    if r.connect == "1" {
      var first := if d.secret != "" then Setting(intent, SignedIntent(d, CONNECT)) else [];
      var second := if resource != "" && !ConnectRefused(d, r) then Setting(d.jar.ConnectResource(), resource) else [];
      var c1 := Track(c, now, first, name);
      TrackAppend(c, now, first, second, name);
      TrackSetting(c, now, intent, SignedIntent(d, CONNECT), name);
      TrackSetting(c1, now, d.jar.ConnectResource(), resource, name);
      TrackNothing(c1, now, name);
    } else {
      TrackAppend(c, now, Expiring(intent), Expiring(d.jar.ConnectResource()), name);
      TrackExpiring(c, now, intent, name);
      TrackExpiring(Track(c, now, Expiring(intent), name), now, d.jar.ConnectResource(), name);
    }
  }

  lemma TrackNothing(c: Option<Stored>, now: int, name: string)
    ensures Track(c, now, [], name) == c
  {
  }

  lemma TrackChecks(d: Deployment, p: Provider, r: StartRequest, c: Option<Stored>, now: int, name: string)
    requires Sound(d)
    ensures Track(c, now, CheckHeaders(d, p, r), name) ==
            if UsesCheck(p, State) && name == d.jar.State().name then Made(now, d.jar.State(), StateOf(p, r))
            else if UsesCheck(p, Pkce) && name == d.jar.PkceCodeVerifier().name then
              Made(now, d.jar.PkceCodeVerifier(), VerifierOf(p, r))
            else if UsesCheck(p, Nonce) && name == d.jar.Nonce().name then Made(now, d.jar.Nonce(), NonceOf(p, r))
            else c
  {
    hide Track, Setting, Renders, HeaderSafe, Encode, Made;
    NamesApart(d, d.jar.State().name);
    NamesApart(d, d.jar.PkceCodeVerifier().name);
    var first := if UsesCheck(p, State) then Setting(d.jar.State(), StateOf(p, r)) else [];
    var second := if UsesCheck(p, Pkce) then Setting(d.jar.PkceCodeVerifier(), VerifierOf(p, r)) else [];
    var third := if UsesCheck(p, Nonce) then Setting(d.jar.Nonce(), NonceOf(p, r)) else [];
    var c1 := Track(c, now, first, name);
    var c2 := Track(c1, now, second, name);
    RandomStrings(r.state, r.verifier);
    RandomStrings(r.verifier, r.state);
    RandomStrings(r.nonce, r.state);
    TrackAppend(c, now, first + second, third, name);
    TrackAppend(c, now, first, second, name);
    TrackSetting(c, now, d.jar.State(), StateOf(p, r), name);
    TrackSetting(c1, now, d.jar.PkceCodeVerifier(), VerifierOf(p, r), name);
    TrackSetting(c2, now, d.jar.Nonce(), NonceOf(p, r), name);
    TrackNothing(c, now, name);
    TrackNothing(c1, now, name);
    TrackNothing(c2, now, name);
  }

  lemma TrackReturn(d: Deployment, r: StartRequest, cookies: map<string, string>, c: Option<Stored>, now: int, name: string)
    requires Sound(d)
    ensures var target := CallbackTarget(d, r, cookies);
            Track(c, now, ReturnHeaders(d, r, cookies), name) ==
            if name == d.jar.CallbackUrl().name && Remembered(d, target) then Made(now, d.jar.CallbackUrl(), target)
            else if name == d.jar.Flow().name && r.wantsTokens then Made(now, d.jar.Flow(), "token")
            else c
  {
    hide Track, Setting, CallbackTarget, Made, Renders, HeaderSafe;
    ReturnNamesApart(d);
    var target := CallbackTarget(d, r, cookies);
    var first := if target != "" && target != d.origin then Setting(d.jar.CallbackUrl(), target) else [];
    var second := if r.wantsTokens then Setting(d.jar.Flow(), "token") else [];
    var c1 := Track(c, now, first, name);
    TrackAppend(c, now, first, second, name);
    TrackSetting(c, now, d.jar.CallbackUrl(), target, name);
    TrackSetting(c1, now, d.jar.Flow(), "token", name);
    TokenSafe();
    TrackNothing(c, now, name);
    TrackNothing(c1, now, name);
  }

  lemma TokenSafe()
    ensures HeaderSafe("token")
  {
  }

  lemma ReturnNamesApart(d: Deployment)
    requires Sound(d)
    ensures d.jar.CallbackUrl().name != d.jar.Flow().name && d.jar.Nonce().name != d.jar.CallbackUrl().name
    ensures d.jar.Nonce().name != d.jar.Flow().name
    ensures !Deciding(d.jar, d.jar.Nonce().name) && !Deciding(d.jar, d.jar.CallbackUrl().name) && !Deciding(d.jar, d.jar.Flow().name)
  {
    var names := Names(d.jar, d.session);
    assert forall i, j | 0 <= i < j < 8 :: names[i] != names[j];
    assert names[0] == d.jar.State().name && names[1] == d.jar.PkceCodeVerifier().name && names[2] == d.jar.Nonce().name;
    assert names[3] == d.jar.CallbackUrl().name && names[4] == d.jar.Flow().name && names[5] == d.jar.FlowIntent().name;
    assert names[6] == d.jar.ConnectResource().name;
  }

  /** The start got as far as writing the check cookies. */
  predicate Issues(d: Deployment, p: Provider, r: StartRequest) {
    Touches(p, r) && !ConnectRefused(d, r)
  }

  /** The return target goes into a cookie, unless it is the default or no header value. */
  predicate Remembered(d: Deployment, target: string) {
    target != "" && target != d.origin && HeaderSafe(target)
  }

  /** The cookie a touching start leaves under each of the four names. */
  function Left(d: Deployment, p: Provider, r: StartRequest, before: Option<Stored>, now: int, name: string): Option<Stored> {
    if name == d.jar.State().name then
      if Issues(d, p, r) && UsesCheck(p, State) then Made(now, d.jar.State(), StateOf(p, r)) else None
    else if name == d.jar.PkceCodeVerifier().name then
      if Issues(d, p, r) && UsesCheck(p, Pkce) then Made(now, d.jar.PkceCodeVerifier(), VerifierOf(p, r)) else None
    else if name == d.jar.ConnectResource().name then
      if Issues(d, p, r) && r.connect == "1" && Trim(r.resourceId) != "" then
        Made(now, d.jar.ConnectResource(), Trim(r.resourceId))
      else None
    else if r.connect == "1" then
      if d.secret != "" then Made(now, d.jar.FlowIntent(), SignedIntent(d, CONNECT)) else before
    else None
  }

  predicate Deciding(jar: CookieJar, name: string) {
    || name == jar.State().name || name == jar.PkceCodeVerifier().name
    || name == jar.ConnectResource().name || name == jar.FlowIntent().name
  }

  lemma NamesApart(d: Deployment, name: string)
    requires Sound(d) && Deciding(d.jar, name)
    ensures name != d.jar.Nonce().name && name != d.jar.CallbackUrl().name && name != d.jar.Flow().name
    ensures name != d.session.name
    ensures Transient(d.jar, name) <==> name != d.jar.FlowIntent().name
    ensures d.jar.State().name != d.jar.PkceCodeVerifier().name && d.jar.State().name != d.jar.ConnectResource().name
    ensures d.jar.State().name != d.jar.FlowIntent().name && d.jar.PkceCodeVerifier().name != d.jar.ConnectResource().name
    ensures d.jar.PkceCodeVerifier().name != d.jar.FlowIntent().name && d.jar.ConnectResource().name != d.jar.FlowIntent().name
  {
    var names := Names(d.jar, d.session);
    assert forall i, j | 0 <= i < j < 8 :: names[i] != names[j];
    assert names[0] == d.jar.State().name && names[1] == d.jar.PkceCodeVerifier().name && names[2] == d.jar.Nonce().name;
    assert names[3] == d.jar.CallbackUrl().name && names[4] == d.jar.Flow().name && names[5] == d.jar.FlowIntent().name;
    assert names[6] == d.jar.ConnectResource().name && names[7] == d.session.name;
  }

  /** What a start leaves behind, whatever the browser held before. */
  lemma StartLeaves(
    d: Deployment, p: Provider, r: StartRequest, cookies: map<string, string>, b: Browser, now: int, name: string)
    requires Sound(d) && Deciding(d.jar, name) && Touches(p, r)
    ensures Lookup(ReceiveAll(b, now, StartHeaders(d, p, r, cookies)), name) == Left(d, p, r, Lookup(b, name), now, name)
  {
    hide Track, ExpiringOauthFlow, ConnectHeaders, CheckHeaders, ReturnHeaders, Sound, Made, SignedIntent, Trim, Transient;
    hide Touches, StateOf, VerifierOf, Receive, ReceiveAll, Lookup;
    var c := Lookup(b, name);
    TrackIsReceive(b, now, StartHeaders(d, p, r, cookies), name);
    NamesApart(d, name);
    var c1 := Track(c, now, ExpiringOauthFlow(d.jar), name);
    TrackExpiringFlow(d, c, now, name);
    var c2 := Track(c1, now, ConnectHeaders(d, r), name);
    TrackConnect(d, r, c1, now, name);
    TrackAppend(c, now, ExpiringOauthFlow(d.jar), ConnectHeaders(d, r), name);
    var rest := if ConnectRefused(d, r) then [] else CheckHeaders(d, p, r) + ReturnHeaders(d, r, cookies);
    TrackAppend(c, now, ExpiringOauthFlow(d.jar) + ConnectHeaders(d, r), rest, name);
    TrackNothing(c2, now, name);
    TrackAppend(c2, now, CheckHeaders(d, p, r), ReturnHeaders(d, r, cookies), name);
    TrackChecks(d, p, r, c2, now, name);
    TrackReturn(d, r, cookies, Track(c2, now, CheckHeaders(d, p, r), name), now, name);
  }

  /** The three cookies that no callback compares, after a start: where to return, what to return, the nonce. */
  lemma StartRemembers(d: Deployment, p: Provider, r: StartRequest, cookies: map<string, string>, b: Browser, now: int)
    requires Sound(d) && Touches(p, r)
    ensures var after := ReceiveAll(b, now, StartHeaders(d, p, r, cookies));
            var remembered := ReadCookie(cookies, d.jar.CallbackUrl().name);
            var target :=
              if r.callbackForm != "" then r.callbackForm else if r.callbackQuery != "" then r.callbackQuery
              else if remembered != "" then remembered else d.origin;
            && Lookup(after, d.jar.CallbackUrl().name) ==
               (if Issues(d, p, r) && Remembered(d, target) then Made(now, d.jar.CallbackUrl(), target) else None)
            && Lookup(after, d.jar.Flow().name) ==
               (if Issues(d, p, r) && r.wantsTokens then Made(now, d.jar.Flow(), "token") else None)
            && Lookup(after, d.jar.Nonce().name) ==
               (if Issues(d, p, r) && UsesCheck(p, Nonce) then Made(now, d.jar.Nonce(), NonceOf(p, r)) else None)
  {
    hide ReceiveAll, StartHeaders, Sound, Made, HeaderSafe, NonceOf, Lookup, Touches, ConnectRefused, Trim;
    ReturnNamesApart(d);
    TrackStart(d, p, r, cookies, Lookup(b, d.jar.CallbackUrl().name), now, d.jar.CallbackUrl().name);
    TrackStart(d, p, r, cookies, Lookup(b, d.jar.Flow().name), now, d.jar.Flow().name);
    TrackStart(d, p, r, cookies, Lookup(b, d.jar.Nonce().name), now, d.jar.Nonce().name);
    TrackChecksReturn(d, p, r, cookies, now, d.jar.CallbackUrl().name);
    TrackChecksReturn(d, p, r, cookies, now, d.jar.Flow().name);
    TrackChecksReturn(d, p, r, cookies, now, d.jar.Nonce().name);
    TrackIsReceive(b, now, StartHeaders(d, p, r, cookies), d.jar.CallbackUrl().name);
    TrackIsReceive(b, now, StartHeaders(d, p, r, cookies), d.jar.Flow().name);
    TrackIsReceive(b, now, StartHeaders(d, p, r, cookies), d.jar.Nonce().name);
  }

  lemma TrackChecksReturn(d: Deployment, p: Provider, r: StartRequest, cookies: map<string, string>, now: int, name: string)
    requires Sound(d) && !Deciding(d.jar, name)
    ensures var target := CallbackTarget(d, r, cookies);
            Track(Track(None, now, CheckHeaders(d, p, r), name), now, ReturnHeaders(d, r, cookies), name) ==
            if name == d.jar.CallbackUrl().name && Remembered(d, target) then Made(now, d.jar.CallbackUrl(), target)
            else if name == d.jar.Flow().name && r.wantsTokens then Made(now, d.jar.Flow(), "token")
            else if UsesCheck(p, Nonce) && name == d.jar.Nonce().name then Made(now, d.jar.Nonce(), NonceOf(p, r))
            else None
  {
    hide Track, Sound, Made, HeaderSafe, CallbackTarget, CheckHeaders, ReturnHeaders, Encode;
    ReturnNamesApart(d);
    TrackChecks(d, p, r, None, now, name);
    TrackReturn(d, r, cookies, Track(None, now, CheckHeaders(d, p, r), name), now, name);
  }

  /** A cookie the markers do not concern: cleared first, then perhaps set. */
  lemma TrackStart(
    d: Deployment, p: Provider, r: StartRequest, cookies: map<string, string>, c: Option<Stored>, now: int, name: string)
    requires Sound(d) && Touches(p, r) && Transient(d.jar, name) && !Deciding(d.jar, name)
    ensures Track(c, now, StartHeaders(d, p, r, cookies), name) ==
            if !Issues(d, p, r) then None
            else Track(Track(None, now, CheckHeaders(d, p, r), name), now, ReturnHeaders(d, r, cookies), name)
  {
    hide Track, ExpiringOauthFlow, ConnectHeaders, CheckHeaders, ReturnHeaders, Sound, Transient, Touches, ConnectRefused;
    var none := Track(c, now, ExpiringOauthFlow(d.jar), name);
    TrackExpiringFlow(d, c, now, name);
    TrackConnect(d, r, none, now, name);
    TrackAppend(c, now, ExpiringOauthFlow(d.jar), ConnectHeaders(d, r), name);
    var rest := if ConnectRefused(d, r) then [] else CheckHeaders(d, p, r) + ReturnHeaders(d, r, cookies);
    TrackAppend(c, now, ExpiringOauthFlow(d.jar) + ConnectHeaders(d, r), rest, name);
    TrackNothing(none, now, name);
    TrackAppend(none, now, CheckHeaders(d, p, r), ReturnHeaders(d, r, cookies), name);
  }

  /** The callback redeems its code and everything after that succeeds, up to the connect or the sign-in. */
  predicate Completed(d: Deployment, p: Provider, q: CallbackRequest, ext: External, cookies: map<string, string>) {
    && CallbackResultOf(d, p, q, ext, cookies).form.Some?
    && ext.exchanged && ext.userInfo && ext.profile && ext.resolved.Some? && ext.resolved.value != ""
  }

  lemma CompletedIsReached(d: Deployment, p: Provider, q: CallbackRequest, ext: External, cookies: map<string, string>)
    ensures Completed(d, p, q, ext, cookies) <==> Reaches(d, p, q, cookies) && Completes(p, ext)
  {
    hide CallbackResultOf, Reaches;
    RedeemedIsReached(d, p, q, ext, cookies);
  }

  /** A callback clears the six transient cookies, whatever it is answered. */
  lemma CallbackClears(
    d: Deployment, p: Provider, q: CallbackRequest, ext: External, cookies: map<string, string>, b: Browser, now: int,
    name: string)
    requires Sound(d) && Transient(d.jar, name)
    ensures Lookup(ReceiveAll(b, now, CallbackHeaders(d, p, q, ext, cookies)), name) == None
  {
    hide Track, ExpiringOauthFlow, InnerHeaders, Sound, Transient, Receive, ReceiveAll, Lookup;
    var c := Lookup(b, name);
    var inner := InnerHeaders(d, p, q, ext, cookies);
    TrackIsReceive(b, now, CallbackHeaders(d, p, q, ext, cookies), name);
    TrackAppend(c, now, inner, ExpiringOauthFlow(d.jar), name);
    TrackExpiringFlow(d, Track(c, now, inner, name), now, name);
  }

  /** A callback clears the state, the verifier and the resource, and the intent when it used it up. */
  lemma CallbackLeaves(
    d: Deployment, p: Provider, q: CallbackRequest, ext: External, cookies: map<string, string>, b: Browser, now: int,
    name: string)
    requires Sound(d) && Deciding(d.jar, name)
    ensures Lookup(ReceiveAll(b, now, CallbackHeaders(d, p, q, ext, cookies)), name) ==
            if name == d.jar.FlowIntent().name && !(Completed(d, p, q, ext, cookies) && d.secret != "")
            then Lookup(b, name) else None
  {
    hide Track, ExpiringOauthFlow, InnerHeaders, Sound, Transient, Receive, ReceiveAll, Lookup, Completed;
    CompletedIsReached(d, p, q, ext, cookies);
    hide Reaches, Completes;
    var c := Lookup(b, name);
    var inner := InnerHeaders(d, p, q, ext, cookies);
    TrackIsReceive(b, now, CallbackHeaders(d, p, q, ext, cookies), name);
    TrackAppend(c, now, inner, ExpiringOauthFlow(d.jar), name);
    TrackExpiringFlow(d, Track(c, now, inner, name), now, name);
    NamesApart(d, name);
    if name == d.jar.FlowIntent().name {
      TrackInner(d, p, q, ext, cookies, c, now);
    }
  }

  lemma TrackInner(
    d: Deployment, p: Provider, q: CallbackRequest, ext: External, cookies: map<string, string>, c: Option<Stored>, now: int)
    requires Sound(d)
    ensures Track(c, now, InnerHeaders(d, p, q, ext, cookies), d.jar.FlowIntent().name) ==
            if Reaches(d, p, q, cookies) && Completes(p, ext) && d.secret != "" then None else c
  {
    hide Track, Expiring, Setting, Sound, Renders, StateAccepted, Completes, IntentAccepted, CompletionHeaders, StateHeaders;
    var name := d.jar.FlowIntent().name;
    NamesApart(d, name);
    var first := StateHeaders(d, p, cookies);
    var second := if UsesCheck(p, Pkce) then Expiring(d.jar.PkceCodeVerifier()) else [];
    var third := if Completes(p, ext) then CompletionHeaders(d, ext, cookies) else [];
    TrackNothing(c, now, name);
    TrackStateHeaders(d, p, cookies, c, now);
    TrackAppend(c, now, first, if !Reaches(d, p, q, cookies) then [] else second + third, name);
    TrackAppend(c, now, second, third, name);
    TrackExpiring(c, now, d.jar.PkceCodeVerifier(), name);
    TrackCompletion(d, ext, cookies, c, now);
  }

  lemma TrackStateHeaders(d: Deployment, p: Provider, cookies: map<string, string>, c: Option<Stored>, now: int)
    requires Sound(d)
    ensures Track(c, now, StateHeaders(d, p, cookies), d.jar.FlowIntent().name) == c
  {
    hide Track, Expiring, Sound, ReadCookie;
    var name := d.jar.FlowIntent().name;
    NamesApart(d, name);
    var first := if ReadCookie(cookies, d.jar.Flow().name) == "token" then Expiring(d.jar.Flow()) else [];
    var second := if UsesCheck(p, State) then Expiring(d.jar.State()) else [];
    TrackAppend(c, now, first, second, name);
    TrackNothing(c, now, name);
    TrackExpiring(c, now, d.jar.Flow(), name);
    TrackExpiring(c, now, d.jar.State(), name);
  }

  lemma TrackCompletion(d: Deployment, ext: External, cookies: map<string, string>, c: Option<Stored>, now: int)
    requires Sound(d)
    ensures Track(c, now, CompletionHeaders(d, ext, cookies), d.jar.FlowIntent().name) == if d.secret != "" then None else c
  {
    hide Track, Expiring, Setting, IntentAccepted;
    var name := d.jar.FlowIntent().name;
    NamesApart(d, name);
    var first := if d.secret != "" then Expiring(d.jar.FlowIntent()) else [];
    var second :=
      if IntentAccepted(d, cookies) then Expiring(d.jar.ConnectResource())
      else if ext.authorized.Some? && ext.authorized.value != "" then Setting(d.session, ext.authorized.value)
      else [];
    var c1 := Track(c, now, first, name);
    TrackAppend(c, now, first, second, name);
    TrackNothing(c, now, name);
    TrackNothing(c1, now, name);
    TrackExpiring(c, now, d.jar.FlowIntent(), name);
    TrackExpiring(c1, now, d.jar.ConnectResource(), name);
    if ext.authorized.Some? {
      TrackSetting(c1, now, d.session, ext.authorized.value, name);
    }
  }

  // --- What every run keeps ------------------------------------------------------

  /** Each deciding cookie is gone, or is exactly what the latest start left. */
  predicate OfLatest(d: Deployment, w: World, name: string) {
    || Lookup(w.browser, name) == None
    || (w.latest.Some?
        && var l := w.latest.value;
           Lookup(w.browser, name) == Left(d, l.info.p, l.info.r, None, l.at, name))
  }

  ghost predicate HoldsLatest(d: Deployment, w: World) {
    forall name | Deciding(d.jar, name) :: OfLatest(d, w, name)
  }

  predicate WasSent(steps: seq<Step>, info: StartInfo) {
    info.step < |steps| && steps[info.step] == SendStart(info.p, info.r)
  }

  /** Responses in flight and the latest start are tied to the steps that sent their requests. */
  predicate Recorded(w: World, steps: seq<Step>) {
    && w.step == |steps|
    && (forall k | k in w.flights :: k < |steps|)
    && (forall k | k in w.flights && w.flights[k].StartFlight? ::
          w.flights[k].info.step == k && WasSent(steps, w.flights[k].info))
    && (w.latest.Some? ==>
          var l := w.latest.value;
          && WasSent(steps, l.info) && Touches(l.info.p, l.info.r) && l.at <= w.now && l.info.step !in w.flights)
  }

  lemma DeliverKeeps(d: Deployment, w: World, k: nat, name: string)
    requires Sound(d) && Deciding(d.jar, name) && OfLatest(d, w, name)
    ensures OfLatest(d, DeliverFlight(d, w, k), name)
  {
    hide Sound, ReceiveAll, StartHeaders, CallbackHeaders, Deciding, Touches, Made, SignedIntent, Trim, Issues;
    if k in w.flights {
      match w.flights[k]
      case StartFlight(info, cookies) =>
        if Touches(info.p, info.r) {
          StartLeaves(d, info.p, info.r, cookies, w.browser, w.now, name);
        } else {
          UntouchedStart(d, info, cookies, w.browser, w.now);
        }
      case CallbackFlight(p, q, ext, cookies) =>
        CallbackLeaves(d, p, q, ext, cookies, w.browser, w.now, name);
    }
  }

  lemma UntouchedStart(d: Deployment, info: StartInfo, cookies: map<string, string>, b: Browser, now: int)
    requires !Touches(info.p, info.r)
    ensures ReceiveAll(b, now, StartHeaders(d, info.p, info.r, cookies)) == b
  {
  }

  lemma NextHolds(d: Deployment, w: World, x: Step)
    requires Sound(d) && HoldsLatest(d, w)
    ensures HoldsLatest(d, Next(d, w, x))
  {
    hide Sound, Left, DeliverFlight, Deciding;
    forall name | Deciding(d.jar, name) ensures OfLatest(d, Next(d, w, x), name) {
      if x.Deliver? {
        DeliverKeeps(d, w, x.flight, name);
      }
    }
  }

  lemma NextRecorded(d: Deployment, w: World, steps: seq<Step>, x: Step)
    requires Recorded(w, steps)
    ensures Recorded(Next(d, w, x), steps + [x])
  {
    hide ReceiveAll, HeadersOf, Touches, Sent;
  }

  lemma {:induction false} RunKeeps(d: Deployment, steps: seq<Step>)
    requires Sound(d)
    ensures HoldsLatest(d, Run(d, steps)) && Recorded(Run(d, steps), steps)
  {
    hide Sound, HoldsLatest, Recorded, Next;
    if steps == [] {
      assert HoldsLatest(d, INITIAL) && Recorded(INITIAL, []) by { InitialKeeps(d); }
    } else {
      var front := steps[..|steps| - 1];
      RunKeeps(d, front);
      assert front + [steps[|steps| - 1]] == steps;
      NextHolds(d, Run(d, front), steps[|steps| - 1]);
      NextRecorded(d, Run(d, front), front, steps[|steps| - 1]);
    }
  }

  lemma InitialKeeps(d: Deployment)
    ensures HoldsLatest(d, INITIAL) && Recorded(INITIAL, [])
  {
  }

  /** Step j brought a start's cookies to the browser. */
  predicate TouchesAt(d: Deployment, steps: seq<Step>, j: nat)
    requires j < |steps|
  {
    && steps[j].Deliver?
    && var flights := Run(d, steps[..j]).flights;
       var k := steps[j].flight;
       k in flights && flights[k].StartFlight? && Touches(flights[k].info.p, flights[k].info.r)
  }

  /** Step j was the last to do so. */
  predicate LastTouch(d: Deployment, steps: seq<Step>, j: nat, l: Latest) {
    && j < |steps| && TouchesAt(d, steps, j)
    && steps[j].flight == l.info.step && Run(d, steps[..j]).now == l.at
    && forall k | j < k < |steps| :: !TouchesAt(d, steps, k)
  }

  lemma NextLatest(d: Deployment, w: World, x: Step)
    ensures Next(d, w, x).latest ==
            if x.Deliver? && x.flight in w.flights && w.flights[x.flight].StartFlight?
               && Touches(w.flights[x.flight].info.p, w.flights[x.flight].info.r)
            then Some(Latest(w.flights[x.flight].info, w.now))
            else w.latest
  {
    hide HeadersOf, ReceiveAll, Touches, Sent;
  }

  lemma TouchesPrefix(d: Deployment, front: seq<Step>, x: Step, k: nat)
    requires k < |front|
    ensures TouchesAt(d, front + [x], k) == TouchesAt(d, front, k)
  {
    assert (front + [x])[..k] == front[..k];
  }

  lemma LastTouchPrefix(d: Deployment, front: seq<Step>, x: Step, j: nat, l: Latest)
    requires LastTouch(d, front, j, l) && !TouchesAt(d, front + [x], |front|)
    ensures LastTouch(d, front + [x], j, l)
  {
    hide Run, TouchesAt;
    var steps := front + [x];
    TouchesPrefix(d, front, x, j);
    assert steps[..j] == front[..j];
    forall k | j < k < |steps| ensures !TouchesAt(d, steps, k) {
      if k < |front| {
        TouchesPrefix(d, front, x, k);
      }
    }
  }

  lemma NewLastTouch(d: Deployment, front: seq<Step>, x: Step)
    requires Recorded(Run(d, front), front) && TouchesAt(d, front + [x], |front|)
    ensures Run(d, front + [x]).latest.Some?
    ensures LastTouch(d, front + [x], |front|, Run(d, front + [x]).latest.value)
  {
    hide Next, Touches, WasSent;
    var steps := front + [x];
    assert steps[..|front|] == front;
    NextLatest(d, Run(d, front), x);
  }

  lemma SameLatest(d: Deployment, front: seq<Step>, x: Step)
    requires !TouchesAt(d, front + [x], |front|)
    ensures Run(d, front + [x]).latest == Run(d, front).latest
  {
    hide Next, Touches;
    assert (front + [x])[..|front|] == front;
    NextLatest(d, Run(d, front), x);
  }

  lemma {:induction false} LatestIsLast(d: Deployment, steps: seq<Step>)
    requires Sound(d)
    ensures match Run(d, steps).latest
            case None => forall k | 0 <= k < |steps| :: !TouchesAt(d, steps, k)
            case Some(l) => exists j: nat :: LastTouch(d, steps, j, l)
  {
    if steps != [] {
      hide Sound, HoldsLatest, Recorded, Run, LastTouch, TouchesAt;
      var n := |steps| - 1;
      var front, x := steps[..n], steps[n];
      assert steps == front + [x];
      LatestIsLast(d, front);
      RunKeeps(d, front);
      if TouchesAt(d, steps, n) {
        NewLastTouch(d, front, x);
      } else {
        SameLatest(d, front, x);
        if Run(d, front).latest.Some? {
          var j: nat :| LastTouch(d, front, j, Run(d, front).latest.value);
          LastTouchPrefix(d, front, x, j, Run(d, front).latest.value);
        } else {
          forall k | 0 <= k < n ensures !TouchesAt(d, steps, k) {
            TouchesPrefix(d, front, x, k);
          }
        }
      }
    }
  }

  // --- Callbacks in runs ----------------------------------------------------------

  /** The cookies of a request sent in this world. */
  function Carried(w: World): map<string, string> {
    Sent(w.browser, w.now)
  }

  predicate Carries(w: World, opt: CookieOption) {
    opt.name in Carried(w)
  }

  /** The callback gets past a state check that its provider really makes. */
  predicate Passes(d: Deployment, w: World, p: Provider, q: CallbackRequest) {
    State in p.checks && q.error == "" && q.code != "" && StateReturned(d, q, Carried(w))
  }

  function StartedUrl(d: Deployment, info: StartInfo): Option<Url> {
    AuthorizationUrl(d, info.p, CallbackUrl(d, info.p), StateOf(info.p, info.r), VerifierOf(info.p, info.r),
                     NonceOf(info.p, info.r))
  }

  /** A cookie of a request is the one the latest start left, and is not over age. */
  lemma CarriedIsLatest(d: Deployment, w: World, opt: CookieOption)
    requires HoldsLatest(d, w) && Deciding(d.jar, opt.name) && Carries(w, opt)
    ensures w.latest.Some?
    ensures var l := w.latest.value;
            var left := Left(d, l.info.p, l.info.r, None, l.at, opt.name);
            left.Some? && Carried(w)[opt.name] == left.value.value && Unexpired(left.value, w.now)
  {
    hide Left, Deciding;
    assert OfLatest(d, w, opt.name);
  }

  predicate Within(opt: CookieOption, age: int) {
    match MaxAge(opt.maxAge)
    case None => true
    case Some(seconds) => 0 < seconds && age <= seconds
  }

  /**
   The state that passes is the one drawn by the browser's latest start, which ended in a redirect carrying
   it, and its cookie is not over age.
   */
  lemma StateWasIssued(d: Deployment, steps: seq<Step>, p: Provider, q: CallbackRequest)
    requires Sound(d)
    requires Passes(d, Run(d, steps), p, q)
    ensures var w := Run(d, steps);
            && w.latest.Some?
            && var l := w.latest.value;
               && WasSent(steps, l.info) && l.info.step !in w.flights
               && UsesCheck(l.info.p, State) && Issues(d, l.info.p, l.info.r)
               && q.state == Encode(l.info.r.state)
               && 0 <= w.now - l.at && Within(d.jar.State(), w.now - l.at)
               && StartReplyOf(d, l.info.p, l.info.r) == ToProvider(StartedUrl(d, l.info).value)
               && (Unreserved(l.info.p, "state") ==>
                     var params := StartedUrl(d, l.info).value.params;
                     "state" in params && params["state"] == q.state)
  {
    hide Sound, Sent, AuthorizationUrl, Encode, Unreserved, Trim, HoldsLatest, CallbackUrl, Run, SignedIntent;
    var w := Run(d, steps);
    RunKeeps(d, steps);
    CarriedIsLatest(d, w, d.jar.State());
    var l := w.latest.value;
    RandomStrings(l.info.r.state, l.info.r.state);
    assert l.info.p.authorizationEndpoint != "";
    assert AuthorizationUrl(d, l.info.p, CallbackUrl(d, l.info.p), StateOf(l.info.p, l.info.r),
                            VerifierOf(l.info.p, l.info.r), NonceOf(l.info.p, l.info.r)).Some? by {
      EndpointGivesUrl(d, l.info);
    }
    UrlEssentials(d, l.info.p, CallbackUrl(d, l.info.p), StateOf(l.info.p, l.info.r), VerifierOf(l.info.p, l.info.r),
               NonceOf(l.info.p, l.info.r));
  }

  /**
   So whatever a callback with the state check is answered short of an error page, and whatever it posts, it carries
   the state that the browser's latest start drew.
   */
  lemma AnswerWasIssued(d: Deployment, steps: seq<Step>, p: Provider, q: CallbackRequest, ext: External)
    requires Sound(d) && State in p.checks
    requires var result := CallbackResultOf(d, p, q, ext, Carried(Run(d, steps)));
             !result.reply.ErrorPage? || result.form.Some?
    ensures Passes(d, Run(d, steps), p, q)
    ensures var w := Run(d, steps);
            && w.latest.Some? && State in w.latest.value.info.p.checks
            && Issues(d, w.latest.value.info.p, w.latest.value.info.r)
            && q.state == Encode(w.latest.value.info.r.state)
  {
    hide Sound, Run, CallbackResultOf, AuthorizationUrl, Encode, Unreserved, StartReplyOf, CallbackUrl, Issues, Carried;
    StateGate(d, p, q, ext, Carried(Run(d, steps)));
    StateWasIssued(d, steps, p, q);
  }

  lemma EndpointGivesUrl(d: Deployment, info: StartInfo)
    requires info.p.authorizationEndpoint != ""
    ensures StartedUrl(d, info).Some?
  {
  }

  lemma CarriedIntentAccepted(d: Deployment, w: World)
    requires Sound(d) && HoldsLatest(d, w) && Carries(w, d.jar.FlowIntent())
    ensures w.latest.Some? && w.latest.value.info.r.connect == "1" && d.secret != ""
    ensures IntentAccepted(d, Carried(w))
  {
    hide Sound, Sent, HoldsLatest, VerifyIntent, SignedIntent;
    CarriedIsLatest(d, w, d.jar.FlowIntent());
    NamesApart(d, d.jar.FlowIntent().name);
    SignedIntentSafe(d);
    SignedIntentVerifies(d);
  }

  /**
   Whatever the provider checks: a completed callback is a connect exactly if its request carries the marker,
   and then the browser's latest start asked for one; it is for that start's resource, exactly if the request
   carries that too. So after a plain start no callback is a connect, until another start is delivered. Behind
   a state check the latest start is the one that issued the accepted state.
   */
  lemma ConnectIntegrity(d: Deployment, steps: seq<Step>, p: Provider, q: CallbackRequest, ext: External)
    requires Sound(d)
    requires Completed(d, p, q, ext, Carried(Run(d, steps)))
    ensures var w := Run(d, steps);
            && (Carries(w, d.jar.FlowIntent()) || Carries(w, d.jar.ConnectResource()) ==>
                  && w.latest.Some? && Touches(w.latest.value.info.p, w.latest.value.info.r)
                  && w.latest.value.info.r.connect == "1" && d.secret != "")
            && var resource := if Carries(w, d.jar.ConnectResource()) then Trim(w.latest.value.info.r.resourceId) else "";
               CallbackResultOf(d, p, q, ext, Carried(w)).reply ==
               if Carries(w, d.jar.FlowIntent()) then
                 if resource != "" && !ext.connected then ErrorPage(ConnectFailed)
                 else Connected(ext.resolved.value, resource)
               else if ext.authorized.None? then ErrorPage(AuthorizeFailed)
               else SignedIn(ext.resolved.value, ext.authorized.value)
    ensures State in p.checks ==>
              var w := Run(d, steps);
              && w.latest.Some? && State in w.latest.value.info.p.checks
              && q.state == Encode(w.latest.value.info.r.state)
  {
    hide Sound, Run, Carried, Carries, Encode, Trim, CallbackResultOf, Touches, HoldsLatest, Issues, Passes;
    var w := Run(d, steps);
    RunKeeps(d, steps);
    CompletedIsReached(d, p, q, ext, Carried(w));
    CompletedReply(d, w, p, q, ext);
    if State in p.checks {
      AnswerWasIssued(d, steps, p, q, ext);
    }
    if Carries(w, d.jar.FlowIntent()) {
      CarriedIntentAccepted(d, w);
    }
    if Carries(w, d.jar.ConnectResource()) {
      CarriedResourceIsLatest(d, w);
    }
  }

  lemma CompletedReply(d: Deployment, w: World, p: Provider, q: CallbackRequest, ext: External)
    requires Sound(d) && HoldsLatest(d, w)
    requires Reaches(d, p, q, Carried(w)) && Completes(p, ext)
    ensures Carries(w, d.jar.ConnectResource()) ==> w.latest.Some?
    ensures var resource := if Carries(w, d.jar.ConnectResource()) then Trim(w.latest.value.info.r.resourceId) else "";
            CallbackResultOf(d, p, q, ext, Carried(w)).reply ==
            if Carries(w, d.jar.FlowIntent()) then
              if resource != "" && !ext.connected then ErrorPage(ConnectFailed)
              else Connected(ext.resolved.value, resource)
            else if ext.authorized.None? then ErrorPage(AuthorizeFailed)
            else SignedIn(ext.resolved.value, ext.authorized.value)
  {
    hide Sound, Sent, Trim, HoldsLatest, VerifyIntent, FormOf, Stop, StateAccepted, Completes;
    if Carries(w, d.jar.FlowIntent()) {
      CarriedIntentAccepted(d, w);
    }
    if Carries(w, d.jar.ConnectResource()) {
      CarriedResourceIsLatest(d, w);
    }
    TrimNothing();
  }

  lemma CarriedResourceIsLatest(d: Deployment, w: World)
    requires Sound(d) && HoldsLatest(d, w) && Carries(w, d.jar.ConnectResource())
    ensures w.latest.Some?
    ensures w.latest.value.info.r.connect == "1" && d.secret != ""
    ensures Carried(w)[d.jar.ConnectResource().name] == Trim(w.latest.value.info.r.resourceId)
    ensures Trim(Carried(w)[d.jar.ConnectResource().name]) == Trim(w.latest.value.info.r.resourceId)
  {
    hide Sound, Sent, HoldsLatest, Trim;
    CarriedIsLatest(d, w, d.jar.ConnectResource());
    NamesApart(d, d.jar.ConnectResource().name);
    TrimTwice(w.latest.value.info.r.resourceId);
  }

  lemma TrimTwice(s: string)
    ensures Trim(Trim(s)) == Trim(s)
  {
    TrimAgain(s);
  }

  lemma TrimNothing()
    ensures Trim("") == ""
  {
  }

  /** A connect is only ever the answer to a request for one, with no other resource than was asked for. */
  lemma ConnectWasRequested(d: Deployment, steps: seq<Step>, p: Provider, q: CallbackRequest, ext: External)
    requires Sound(d) && State in p.checks
    ensures var w := Run(d, steps);
            var reply := CallbackResultOf(d, p, q, ext, Carried(w)).reply;
            reply.Connected? ==>
              && w.latest.Some? && w.latest.value.info.r.connect == "1"
              && Issues(d, w.latest.value.info.p, w.latest.value.info.r)
              && q.state == Encode(w.latest.value.info.r.state)
              && (reply.resourceId != "" ==> reply.resourceId == Trim(w.latest.value.info.r.resourceId))
  {
    hide Sound, Run, CallbackResultOf, Trim, Carries, Carried, Encode, Issues, Passes, Touches;
    var cookies := Carried(Run(d, steps));
    if CallbackResultOf(d, p, q, ext, cookies).reply.Connected? {
      StateGate(d, p, q, ext, cookies);
      CallbackAnswers(d, p, q, ext, cookies);
      AnswerWasIssued(d, steps, p, q, ext);
      ConnectIntegrity(d, steps, p, q, ext);
    }
  }

  /**
   The proof key: between two parties that use state and PKCE, the verifier posted to the token endpoint
   is the one whose challenge stands in the authorization URL that carried the accepted state. It is
   posted exactly as long as its cookie is still there.
   */
  lemma PkcePairing(d: Deployment, steps: seq<Step>, p: Provider, q: CallbackRequest, ext: External)
    requires Sound(d)
    requires State in p.checks && Pkce in p.checks
    requires CallbackResultOf(d, p, q, ext, Carried(Run(d, steps))).form.Some?
    ensures var w := Run(d, steps);
            var form := CallbackResultOf(d, p, q, ext, Carried(w)).form.value;
            && w.latest.Some? && StartedUrl(d, w.latest.value.info).Some?
            && ("code_verifier" in form <==> Carries(w, d.jar.PkceCodeVerifier()))
            && (Unreserved(w.latest.value.info.p, "state") && Unreserved(w.latest.value.info.p, "code_challenge")
                && Unreserved(w.latest.value.info.p, "code_challenge_method") ==>
                  var url := StartedUrl(d, w.latest.value.info).value;
                  && "state" in url.params && url.params["state"] == q.state
                  && ("code_verifier" in form ==>
                        && "code_challenge" in url.params
                        && url.params["code_challenge"] == Encode(d.sha256(form["code_verifier"]))
                        && "code_challenge_method" in url.params && url.params["code_challenge_method"] == "S256"))
  {
    hide Sound, Sent, Encode, Trim, HoldsLatest, Run, Recorded, SignedIntent, Unreserved, AuthorizationUrl;
    hide CompletionReply, CallbackUrl, TokenForm, PkceChallenge, Completes, Stop, StateAccepted, StateReturned;
    var w := Run(d, steps);
    RunKeeps(d, steps);
    AnswerWasIssued(d, steps, p, q, ext);
    StateWasIssued(d, steps, p, q);
    var info := w.latest.value.info;
    var verifier := Verifier(d, p, Carried(w));
    FormCarries(p, q.code, CallbackUrl(d, p), verifier);
    UrlEssentials(d, info.p, CallbackUrl(d, info.p), StateOf(info.p, info.r), VerifierOf(info.p, info.r), NonceOf(info.p, info.r));
    if Carries(w, d.jar.PkceCodeVerifier()) {
      CarriedIsLatest(d, w, d.jar.PkceCodeVerifier());
      NamesApart(d, d.jar.PkceCodeVerifier().name);
      RandomStrings(info.r.verifier, info.r.verifier);
    }
  }

  // --- A state is used once --------------------------------------------------------

  /** No two starts draw the same state. */
  predicate FreshStates(steps: seq<Step>) {
    forall i, j | 0 <= i < j < |steps| :: steps[i].SendStart? && steps[j].SendStart? ==> steps[i].r.state != steps[j].r.state
  }

  /** A cookie of the start at step n is out of the browser or over age, and no response can bring it back. */
  predicate Spent(d: Deployment, w: World, name: string, n: nat) {
    && n < w.step && n !in w.flights
    && (name in w.browser ==>
          && w.latest.Some?
          && (w.latest.value.info.step == n ==> !Unexpired(w.browser[name], w.now)))
  }

  lemma SpentStays(d: Deployment, w: World, steps: seq<Step>, x: Step, name: string, n: nat)
    requires Sound(d) && Recorded(w, steps) && Deciding(d.jar, name) && Spent(d, w, name, n)
    ensures Spent(d, Next(d, w, x), name, n)
  {
    hide Sound, ReceiveAll, StartHeaders, CallbackHeaders, Touches, Sent, Deciding, Reaches, Completes;
    if x.Deliver? && x.flight in w.flights {
      match w.flights[x.flight]
      case StartFlight(info, cookies) =>
        if !Touches(info.p, info.r) {
          UntouchedStart(d, info, cookies, w.browser, w.now);
        }
      case CallbackFlight(p, q, ext, cookies) =>
        CallbackLeaves(d, p, q, ext, cookies, w.browser, w.now, name);
    }
  }

  lemma CallbackSpends(d: Deployment, w: World, k: nat)
    requires Sound(d) && k in w.flights && w.flights[k].CallbackFlight?
    ensures d.jar.State().name !in DeliverFlight(d, w, k).browser
  {
    hide Sound, ReceiveAll, CallbackHeaders;
    var f := w.flights[k];
    NamesApart(d, d.jar.State().name);
    CallbackLeaves(d, f.p, f.q, f.ext, f.cookies, w.browser, w.now, d.jar.State().name);
  }

  lemma RunNext(d: Deployment, steps: seq<Step>, i: nat)
    requires i < |steps|
    ensures Run(d, steps[..i + 1]) == Next(d, Run(d, steps[..i]), steps[i])
  {
    assert steps[..i + 1][..i] == steps[..i];
  }

  /** The step leaves the state that the latest start issued usable. */
  predicate Spares(d: Deployment, w: World, x: Step, q: CallbackRequest)
    requires w.latest.Some?
  {
    match x
    case Tick(seconds) => Within(d.jar.State(), w.now + seconds - w.latest.value.at)
    case Forget(name) => name != d.jar.State().name
    case Deliver(k) => k in w.flights ==> Reissues(d, w.flights[k], q)
    case SendStart(_, _) => true
    case SendCallback(_, _, _) => true
    case Lose(_) => true
  }

  predicate Reissues(d: Deployment, f: Flight, q: CallbackRequest) {
    match f
    case CallbackFlight(_, _, _, _) => false
    case StartFlight(info, _) =>
      Touches(info.p, info.r) ==>
        && Issues(d, info.p, info.r) && UsesCheck(info.p, State)
        && Encode(info.r.state) == q.state && Within(d.jar.State(), 0)
  }

  /** The same callback passes again after a step exactly if the step spares its state. */
  lemma StateSurvives(d: Deployment, steps: seq<Step>, x: Step, p: Provider, q: CallbackRequest)
    requires Sound(d) && Passes(d, Run(d, steps), p, q)
    ensures var w := Run(d, steps);
            w.latest.Some? &&
            (Passes(d, Next(d, w, x), p, q) <==> Spares(d, w, x, q))
  {
    hide Sound, Encode, HoldsLatest, Recorded, Trim, AuthorizationUrl, CallbackUrl, ReceiveAll;
    hide Touches, ConnectRefused, Unreserved, Run, StartHeaders, CallbackHeaders;
    var w := Run(d, steps);
    RunKeeps(d, steps);
    StateWasIssued(d, steps, p, q);
    CarriedIsLatest(d, w, d.jar.State());
    assert Lookup(w.browser, d.jar.State().name) == Some(w.browser[d.jar.State().name]);
    HoldsEach(d, w, d.jar.State().name);
    if x.Deliver? && x.flight in w.flights {
      match w.flights[x.flight]
      case StartFlight(info, cookies) =>
        RandomStrings(info.r.state, info.r.state);
        if Touches(info.p, info.r) {
          StartLeaves(d, info.p, info.r, cookies, w.browser, w.now, d.jar.State().name);
        } else {
          UntouchedStart(d, info, cookies, w.browser, w.now);
        }
      case CallbackFlight(_, _, _, _) =>
        CallbackSpends(d, w, x.flight);
    }
  }

  lemma NotSparedIsSpent(d: Deployment, steps: seq<Step>, x: Step, p: Provider, q: CallbackRequest)
    requires Sound(d) && Passes(d, Run(d, steps), p, q)
    requires Run(d, steps).latest.Some? && !Spares(d, Run(d, steps), x, q)
    ensures Spent(d, Next(d, Run(d, steps), x), d.jar.State().name, Run(d, steps).latest.value.info.step)
  {
    hide Sound, Encode, HoldsLatest, Trim, AuthorizationUrl, CallbackUrl, ReceiveAll, Issues;
    hide Touches, ConnectRefused, Unreserved, Run, StartHeaders, CallbackHeaders;
    var w := Run(d, steps);
    RunKeeps(d, steps);
    StateWasIssued(d, steps, p, q);
    CarriedIsLatest(d, w, d.jar.State());
    HoldsEach(d, w, d.jar.State().name);
    if x.Deliver? && x.flight in w.flights && w.flights[x.flight].CallbackFlight? {
      CallbackSpends(d, w, x.flight);
    }
  }

  /** All the steps from i up to j spare the state. */
  predicate Spared(d: Deployment, steps: seq<Step>, i: nat, j: nat, q: CallbackRequest)
    requires j <= |steps|
  {
    forall k | i <= k < j :: SparesAt(d, steps, k, q)
  }

  predicate SparesAt(d: Deployment, steps: seq<Step>, k: nat, q: CallbackRequest)
    requires k < |steps|
  {
    var w := Run(d, steps[..k]);
    w.latest.Some? && Spares(d, w, steps[k], q)
  }

  lemma FreshDiffers(steps: seq<Step>, i: nat, j: nat)
    requires FreshStates(steps) && i != j && i < |steps| && j < |steps| && steps[i].SendStart? && steps[j].SendStart?
    ensures steps[i].r.state != steps[j].r.state
  {
    var a, b := if i < j then i else j, if i < j then j else i;
    assert steps[a].r.state != steps[b].r.state;
  }

  /** Two passes of one state are passes of one start's state. */
  lemma SameStart(
    d: Deployment, steps: seq<Step>, i: nat, j: nat, p: Provider, q: CallbackRequest, other: Provider, again: CallbackRequest)
    requires Sound(d) && FreshStates(steps) && i <= |steps| && j <= |steps|
    requires Passes(d, Run(d, steps[..i]), p, q) && Passes(d, Run(d, steps[..j]), other, again) && again.state == q.state
    ensures Run(d, steps[..i]).latest.Some? && Run(d, steps[..j]).latest.Some?
    ensures Run(d, steps[..i]).latest.value.info.step == Run(d, steps[..j]).latest.value.info.step
  {
    hide Sound, Run, Passes, FreshStates, Issues, AuthorizationUrl, Unreserved, StartReplyOf, Encode, CallbackUrl;
    StateWasIssued(d, steps[..i], p, q);
    StateWasIssued(d, steps[..j], other, again);
    var first, second := Run(d, steps[..i]).latest.value.info, Run(d, steps[..j]).latest.value.info;
    RandomStrings(first.r.state, second.r.state);
    if first.step != second.step {
      FreshDiffers(steps, first.step, second.step);
    }
  }

  lemma PassingIsCurrent(d: Deployment, w: World, p: Provider, q: CallbackRequest, n: nat)
    requires Passes(d, w, p, q) && Spent(d, w, d.jar.State().name, n)
    ensures w.latest.Some? && w.latest.value.info.step != n
  {
  }

  /**
   From a callback that passes, over a whole run: the same callback passes later exactly if every step in
   between spared its state. Whatever ends a state ends it for good.
   */
  lemma {:induction false} StateUsable(d: Deployment, steps: seq<Step>, i: nat, j: nat, p: Provider, q: CallbackRequest)
    requires Sound(d) && FreshStates(steps) && i <= j <= |steps|
    requires Passes(d, Run(d, steps[..i]), p, q)
    ensures Passes(d, Run(d, steps[..j]), p, q) <==> Spared(d, steps, i, j, q)
    ensures Run(d, steps[..i]).latest.Some?
    ensures !Spared(d, steps, i, j, q) ==>
              Spent(d, Run(d, steps[..j]), d.jar.State().name, Run(d, steps[..i]).latest.value.info.step)
  {
    hide Sound, Recorded, HoldsLatest, Spent, Next, Passes, Run, FreshStates, Spares;
    SameStart(d, steps, i, i, p, q, p, q);
    var n := Run(d, steps[..i]).latest.value.info.step;
    if i < j {
      StateUsable(d, steps, i, j - 1, p, q);
      RunNext(d, steps, j - 1);
      assert Spared(d, steps, i, j, q) <==> Spared(d, steps, i, j - 1, q) && SparesAt(d, steps, j - 1, q);
      var w := Run(d, steps[..j - 1]);
      if Passes(d, w, p, q) {
        SameStart(d, steps, i, j - 1, p, q, p, q);
        StateSurvives(d, steps[..j - 1], steps[j - 1], p, q);
        if !SparesAt(d, steps, j - 1, q) {
          NotSparedIsSpent(d, steps[..j - 1], steps[j - 1], p, q);
        }
      } else {
        RunKeeps(d, steps[..j - 1]);
        SpentStays(d, w, steps[..j - 1], steps[j - 1], d.jar.State().name, n);
        if Passes(d, Run(d, steps[..j]), p, q) {
          SameStart(d, steps, i, j, p, q, p, q);
          PassingIsCurrent(d, Run(d, steps[..j]), p, q, n);
        }
      }
    }
  }

  /**
   In particular once the response to the callback has reached the browser: no callback to any provider passes
   with that state again, in any continuation of the run.
   */
  lemma StateIsSingleUse(
    d: Deployment, steps: seq<Step>, i: nat, k: nat, j: nat, p: Provider, q: CallbackRequest, ext: External,
    other: Provider, again: CallbackRequest)
    requires Sound(d) && FreshStates(steps)
    requires i < k < j <= |steps|
    requires steps[i] == SendCallback(p, q, ext) && Passes(d, Run(d, steps[..i]), p, q)
    requires steps[k] == Deliver(i) && i in Run(d, steps[..k]).flights
    requires Passes(d, Run(d, steps[..j]), other, again)
    ensures again.state != q.state
  {
    hide Sound, HoldsLatest, Spent, Next, Passes, Run, FreshStates;
    RunKeeps(d, steps[..k]);
    assert Run(d, steps[..k]).flights[i].CallbackFlight?;
    assert !SparesAt(d, steps, k, q);
    StateUsable(d, steps, i, j, p, q);
    if again.state == q.state {
      SameStart(d, steps, i, j, p, q, other, again);
      PassingIsCurrent(d, Run(d, steps[..j]), other, again, Run(d, steps[..i]).latest.value.info.step);
    }
  }

  // --- How long the connect marker lasts -------------------------------------------

  /** The request would carry the marker that the start at step n left. */
  predicate MarkerOf(d: Deployment, w: World, n: nat) {
    Carries(w, d.jar.FlowIntent()) && w.latest.Some? && w.latest.value.info.step == n
  }

  /** The step is not the end of its age, its loss, another start or a completed callback. */
  predicate KeepsMarker(d: Deployment, w: World, x: Step)
    requires w.latest.Some?
  {
    match x
    case Tick(seconds) => Within(d.jar.FlowIntent(), w.now + seconds - w.latest.value.at)
    case Forget(name) => name != d.jar.FlowIntent().name
    case Deliver(k) =>
      k in w.flights ==>
        (match w.flights[k]
         case StartFlight(info, _) => !Touches(info.p, info.r)
         case CallbackFlight(p, q, ext, cookies) => !Completed(d, p, q, ext, cookies))
    case SendStart(_, _) => true
    case SendCallback(_, _, _) => true
    case Lose(_) => true
  }

  lemma MarkerSurvives(d: Deployment, steps: seq<Step>, x: Step)
    requires Sound(d) && Carries(Run(d, steps), d.jar.FlowIntent())
    ensures var w := Run(d, steps);
            && w.latest.Some?
            && var n := w.latest.value.info.step;
               if KeepsMarker(d, w, x) then MarkerOf(d, Next(d, w, x), n)
               else Spent(d, Next(d, w, x), d.jar.FlowIntent().name, n)
  {
    hide Sound, HoldsLatest, SignedIntent, ReceiveAll, Touches, Run, StartHeaders, CallbackHeaders, Reaches, Completes;
    var w := Run(d, steps);
    var name := d.jar.FlowIntent().name;
    RunKeeps(d, steps);
    NamesApart(d, name);
    CarriedIsLatest(d, w, d.jar.FlowIntent());
    CarriedIntentAccepted(d, w);
    HoldsEach(d, w, name);
    if x.Deliver? && x.flight in w.flights {
      match w.flights[x.flight]
      case StartFlight(info, cookies) =>
        if !Touches(info.p, info.r) {
          UntouchedStart(d, info, cookies, w.browser, w.now);
        }
      case CallbackFlight(p, q, ext, cookies) =>
        CallbackLeaves(d, p, q, ext, cookies, w.browser, w.now, name);
    }
  }

  predicate KeepsMarkerAt(d: Deployment, steps: seq<Step>, k: nat)
    requires k < |steps|
  {
    var w := Run(d, steps[..k]);
    w.latest.Some? && KeepsMarker(d, w, steps[k])
  }

  lemma SpentIsNoMarker(d: Deployment, w: World, n: nat)
    requires Spent(d, w, d.jar.FlowIntent().name, n)
    ensures !MarkerOf(d, w, n)
  {
  }

  /**
   Over whole runs: a request carries the marker of one start as long as every step since kept it, and never
   again afterwards; a marker carried later is another start's.
   */
  lemma {:induction false} MarkerLasts(d: Deployment, steps: seq<Step>, i: nat, j: nat)
    requires Sound(d) && i <= j <= |steps|
    requires Carries(Run(d, steps[..i]), d.jar.FlowIntent())
    ensures Run(d, steps[..i]).latest.Some?
    ensures var n := Run(d, steps[..i]).latest.value.info.step;
            var kept := forall k | i <= k < j :: KeepsMarkerAt(d, steps, k);
            && (MarkerOf(d, Run(d, steps[..j]), n) <==> kept)
            && (!kept ==> Spent(d, Run(d, steps[..j]), d.jar.FlowIntent().name, n))
  {
    hide Sound, Recorded, HoldsLatest, Spent, Next, Run, KeepsMarker, Carries;
    RunKeeps(d, steps[..i]);
    CarriedIsLatest(d, Run(d, steps[..i]), d.jar.FlowIntent());
    var n := Run(d, steps[..i]).latest.value.info.step;
    if i < j {
      MarkerLasts(d, steps, i, j - 1);
      RunNext(d, steps, j - 1);
      var w := Run(d, steps[..j - 1]);
      if MarkerOf(d, w, n) {
        MarkerSurvives(d, steps[..j - 1], steps[j - 1]);
        assert KeepsMarkerAt(d, steps, j - 1) <==> KeepsMarker(d, w, steps[j - 1]);
      } else {
        RunKeeps(d, steps[..j - 1]);
        SpentStays(d, w, steps[..j - 1], steps[j - 1], d.jar.FlowIntent().name, n);
      }
      if Spent(d, Run(d, steps[..j]), d.jar.FlowIntent().name, n) {
        SpentIsNoMarker(d, Run(d, steps[..j]), n);
      }
    }
  }

  lemma HoldsEach(d: Deployment, w: World, name: string)
    requires HoldsLatest(d, w) && Deciding(d.jar, name)
    ensures OfLatest(d, w, name)
  {
  }

  // --- Round trips end as they were started ----------------------------------------

  /**
   A start whose response arrives and whose callback comes back in time ends the way it was meant to, whatever
   the browser held before: a connect with the resource asked for, a plain start with a sign-in, and the code
   redeemed with the verifier drawn.
   */
  lemma RoundTripCompletes(
    d: Deployment, w: World, k: nat, age: nat, q: CallbackRequest, ext: External)
    requires Sound(d)
    requires k in w.flights && w.flights[k].StartFlight?
    requires Issues(d, w.flights[k].info.p, w.flights[k].info.r)
    requires w.flights[k].info.r.connect == "1" ==> age <= 15 * 60
    requires UsesCheck(w.flights[k].info.p, State) ==>
               Within(d.jar.State(), age) && q.state == Encode(w.flights[k].info.r.state)
    requires UsesCheck(w.flights[k].info.p, Pkce) ==> Within(d.jar.PkceCodeVerifier(), age)
    requires q.error == "" && q.code != ""
    requires Completes(w.flights[k].info.p, ext)
    ensures var info := w.flights[k].info;
            var later := Next(d, Next(d, w, Deliver(k)), Tick(age));
            var result := CallbackResultOf(d, info.p, q, ext, Carried(later));
            && result.form.Some?
            && (UsesCheck(info.p, Pkce) ==>
                  var form := result.form.value;
                  "code_verifier" in form && form["code_verifier"] == Encode(info.r.verifier))
            && result.reply ==
               if info.r.connect == "1" then
                 if Trim(info.r.resourceId) != "" && !ext.connected then ErrorPage(ConnectFailed)
                 else Connected(ext.resolved.value, Trim(info.r.resourceId))
               else if ext.authorized.None? then ErrorPage(AuthorizeFailed)
               else SignedIn(ext.resolved.value, ext.authorized.value)
  {
    hide Sound, Encode, Trim, Unreserved, VerifyIntent, SignedIntent, CallbackUrl, TokenForm, Carried, Next, Made;
    hide Touches;
    var info := w.flights[k].info;
    var later := Next(d, Next(d, w, Deliver(k)), Tick(age));
    NamesApart(d, d.jar.State().name);
    RandomStrings(info.r.state, info.r.verifier);
    RandomStrings(info.r.verifier, info.r.state);
    FormCarries(info.p, q.code, CallbackUrl(d, info.p), Verifier(d, info.p, Carried(later)));
    StartArrives(d, w, k, age, d.jar.State(), StateOf(info.p, info.r));
    StartArrives(d, w, k, age, d.jar.PkceCodeVerifier(), VerifierOf(info.p, info.r));
    StartArrives(d, w, k, age, d.jar.FlowIntent(), SignedIntent(d, CONNECT));
    StartArrives(d, w, k, age, d.jar.ConnectResource(), Trim(info.r.resourceId));
    SignedIntentSafe(d);
    SignedIntentVerifies(d);
    TrimTwice(info.r.resourceId);
    TrimNothing();
  }

  lemma StartArrives(d: Deployment, w: World, k: nat, age: nat, opt: CookieOption, value: string)
    requires Sound(d) && Deciding(d.jar, opt.name)
    requires k in w.flights && w.flights[k].StartFlight?
    requires Issues(d, w.flights[k].info.p, w.flights[k].info.r)
    ensures var info := w.flights[k].info;
            var cookies := Carried(Next(d, Next(d, w, Deliver(k)), Tick(age)));
            var left := Left(d, info.p, info.r, Lookup(w.browser, opt.name), w.now, opt.name);
            && (Within(opt, age) && left == Made(w.now, opt, value) ==> opt.name in cookies && cookies[opt.name] == value)
            && (left == None ==> opt.name !in cookies)
  {
    hide Sound, ReceiveAll, StartHeaders, Left, ConnectRefused, Deciding;
    var info := w.flights[k].info;
    StartLeaves(d, info.p, info.r, w.flights[k].cookies, w.browser, w.now, opt.name);
  }

  /**
   Behind a provider without the state check a callback takes the marker of whichever start was delivered
   last: here any start that asked for a connect, whatever the browser held before.
   */
  lemma LatestConnectWins(d: Deployment, w: World, k: nat, p: Provider, q: CallbackRequest, ext: External)
    requires Sound(d) && d.secret != ""
    requires k in w.flights && w.flights[k].StartFlight?
    requires Touches(w.flights[k].info.p, w.flights[k].info.r) && w.flights[k].info.r.connect == "1"
    requires !UsesCheck(p, State) && q.error == "" && q.code != "" && Completes(p, ext)
    ensures var info := w.flights[k].info;
            var resource := if ConnectRefused(d, info.r) then "" else Trim(info.r.resourceId);
            CallbackResultOf(d, p, q, ext, Carried(Next(d, w, Deliver(k)))).reply ==
            if resource != "" && !ext.connected then ErrorPage(ConnectFailed) else Connected(ext.resolved.value, resource)
  {
    hide Sound, Trim, Receive, ReceiveAll, StartHeaders, SignedIntent, VerifyIntent, CallbackUrl, TokenForm, ConnectRefused;
    hide HeaderSafe, Renders;
    var info := w.flights[k].info;
    NamesApart(d, d.jar.FlowIntent().name);
    StartLeaves(d, info.p, info.r, w.flights[k].cookies, w.browser, w.now, d.jar.FlowIntent().name);
    StartLeaves(d, info.p, info.r, w.flights[k].cookies, w.browser, w.now, d.jar.ConnectResource().name);
    SignedIntentSafe(d);
    SignedIntentVerifies(d);
    TrimNothing();
    TrimTwice(info.r.resourceId);
  }

  /** A connect that was refused for its resource leaves its marker, and the next callback is a connect. */
  lemma RefusedConnectLingers(d: Deployment, p: Provider, r: StartRequest, q: CallbackRequest, ext: External)
    requires Sound(d) && d.secret != ""
    requires Touches(p, r) && r.connect == "1" && ConnectRefused(d, r)
    requires !UsesCheck(p, State) && q.error == "" && q.code != "" && Completes(p, ext)
    ensures StartReplyOf(d, p, r) == StartFailed
    ensures CallbackResultOf(d, p, q, ext, Carried(Run(d, [SendStart(p, r), Deliver(0)]))).reply
            == Connected(ext.resolved.value, "")
  {
    hide Sound, ReceiveAll, StartHeaders, ConnectRefused, CallbackResultOf, DeliverFlight, Touches, AuthorizationUrl;
    var steps := [SendStart(p, r), Deliver(0)];
    assert steps[..0] == [] && steps[..1 + 1] == steps;
    RunNext(d, steps, 0);
    RunNext(d, steps, 1);
    LatestConnectWins(d, Run(d, steps[..1]), 0, p, q, ext);
  }

  /**
   And a plain start is overtaken by a connect started after it and never finished: its callback connects
   the other start's resource.
   */
  lemma AbandonedConnectTakesOver(
    d: Deployment, p: Provider, plain: StartRequest, other: Provider, connect: StartRequest, q: CallbackRequest, ext: External)
    requires Sound(d)
    requires Issues(d, p, plain) && plain.connect != "1"
    requires Issues(d, other, connect) && connect.connect == "1"
    requires !UsesCheck(p, State) && q.error == "" && q.code != "" && Completes(p, ext) && ext.connected
    ensures var steps := [SendStart(p, plain), Deliver(0), SendStart(other, connect), Deliver(2)];
            CallbackResultOf(d, p, q, ext, Carried(Run(d, steps))).reply
            == Connected(ext.resolved.value, Trim(connect.resourceId))
  {
    hide Sound, ReceiveAll, StartHeaders, ConnectRefused, CallbackResultOf, DeliverFlight, Touches, Trim;
    var steps := [SendStart(p, plain), Deliver(0), SendStart(other, connect), Deliver(2)];
    assert steps[..3 + 1] == steps;
    RunLength(d, steps[..2]);
    RunNext(d, steps, 2);
    RunNext(d, steps, 3);
    SecretNeeded(d, connect);
    LatestConnectWins(d, Run(d, steps[..3]), 2, p, q, ext);
  }

  lemma SecretNeeded(d: Deployment, r: StartRequest)
    requires r.connect == "1" && !ConnectRefused(d, r)
    ensures d.secret != ""
  {
  }

  lemma {:induction false} RunLength(d: Deployment, steps: seq<Step>)
    ensures Run(d, steps).step == |steps|
  {
    if steps != [] {
      RunLength(d, steps[..|steps| - 1]);
    }
  }
}
