/**
 The two OAuth handlers and the pieces they are made of (src/action_auth.rs, src/oauth.rs,
 src/flow_intent.rs, src/connect_resource.rs, src/checks.rs). SHA-256, the HMAC of the flow intent and
 the UUID syntax are parameters; whatever the provider and the application answer is an input.
 */
module OAuth {
  import opened Wrappers
  import opened Text
  import opened Base64Url
  import opened Cookies

  // --- Providers -----------------------------------------------------------

  datatype Check = Pkce | State | Nonce

  /** A provider with its effective endpoints. */
  datatype Provider = Provider(
    id: string, clientId: string, clientSecret: string, scopes: seq<string>, checks: seq<Check>,
    authorizationParams: map<string, seq<string>>, authorizationEndpoint: string, tokenEndpoint: string,
    authorizationStyle: string)

  predicate UsesCheck(p: Provider, c: Check) {
    c in p.checks
  }

  /** Thirty-two random bytes. */
  type Entropy = b: seq<byte> | |b| == 32 witness seq(32, _ => 0)

  function RandomString(e: Entropy): string {
    Encode(e)
  }

  /** A random string reads as a cookie value, is never empty, and tells its bytes. */
  lemma RandomStrings(a: Entropy, b: Entropy)
    ensures HeaderSafe(RandomString(a)) && RandomString(a) != ""
    ensures RandomString(a) == RandomString(b) <==> a == b
  {
    DecodeEncode(a);
    DecodeEncode(b);
  }

  /** A deployment: its secret, its cookies and the functions this model does not look into. */
  datatype Deployment = Deployment(
    secret: string, hmac: (string, string) -> string, sha256: string -> Entropy, isUuid: string -> bool,
    origin: string, jar: CookieJar, session: CookieOption)

  function PkceChallenge(d: Deployment, verifier: string): string {
    Encode(d.sha256(verifier))
  }

  // --- Authorization URL and token request -----------------------------------

  type Params = map<string, string>

  datatype Url = Url(endpoint: string, params: Params)

  function JoinScopes(scopes: seq<string>): string {
    Join(scopes, " ")
  }

  function PutIf(m: Params, present: bool, key: string, value: string): Params {
    if present then m[key := value] else m
  }

  /** The parameters before the provider's own are laid over them. */
  function CoreParams(d: Deployment, p: Provider, callback: string, state: string, verifier: string, nonce: string): Params {
    var base := map["client_id" := p.clientId]["response_type" := "code"]["redirect_uri" := callback];
    var scoped := PutIf(base, p.scopes != [], "scope", JoinScopes(p.scopes));
    var stated := PutIf(scoped, UsesCheck(p, State) && state != "", "state", state);
    var pkce := UsesCheck(p, Pkce) && verifier != "";
    var challenged := PutIf(stated, pkce, "code_challenge", PkceChallenge(d, verifier));
    var methodNamed := PutIf(challenged, pkce, "code_challenge_method", "S256");
    PutIf(methodNamed, UsesCheck(p, Nonce) && nonce != "", "nonce", nonce)
  }

  /** Of a repeated parameter the last value stays; one without values changes nothing. */
  function Overlay(base: Params, extra: map<string, seq<string>>): Params {
    OverlayKeys(base, extra, extra.Keys)
  }

  function OverlayKeys(base: Params, extra: map<string, seq<string>>, keys: set<string>): Params
    requires keys <= extra.Keys
  {
    map k | k in base.Keys + keys && (k in base || extra[k] != [])
      :: if k in keys && extra[k] != [] then extra[k][|extra[k]| - 1] else base[k]
  }

  function AuthorizationUrl(
    d: Deployment, p: Provider, callback: string, state: string, verifier: string, nonce: string): Option<Url>
  {
    if p.authorizationEndpoint == "" then None
    else
      Some(Url(p.authorizationEndpoint,
               Overlay(CoreParams(d, p, callback, state, verifier, nonce), p.authorizationParams)))
  }

  /** The provider's parameters, whatever order its map yields them in, do not matter beyond the overlay. */
  method BuildAuthorizationUrl(
    d: Deployment, p: Provider, callback: string, state: string, verifier: string, nonce: string)
    returns (url: Option<Url>)
    ensures url == AuthorizationUrl(d, p, callback, state, verifier, nonce)
  {
    if p.authorizationEndpoint == "" {
      return None;
    }
    var params: Params := map["client_id" := p.clientId]["response_type" := "code"]["redirect_uri" := callback];
    if p.scopes != [] {
      params := params["scope" := JoinScopes(p.scopes)];
    }
    if UsesCheck(p, State) && state != "" {
      params := params["state" := state];
    }
    if UsesCheck(p, Pkce) && verifier != "" {
      params := params["code_challenge" := PkceChallenge(d, verifier)];
      params := params["code_challenge_method" := "S256"];
    }
    if UsesCheck(p, Nonce) && nonce != "" {
      params := params["nonce" := nonce];
    }
    params := LayOver(params, p.authorizationParams);
    return Some(Url(p.authorizationEndpoint, params));
  }

  method LayOver(base: Params, extra: map<string, seq<string>>) returns (params: Params)
    ensures params == Overlay(base, extra)
  {
    hide OverlayKeys;
    params := base;
    var left := extra.Keys;
    ghost var done: set<string> := {};
    OverlayNone(base, extra);
    while left != {}
      invariant left !! done && left + done == extra.Keys
      invariant params == OverlayKeys(base, extra, done)
    {
      var key :| key in left;
      OverlayOne(base, extra, done, key);
      params := InsertAll(params, key, extra[key]);
      left := left - {key};
      done := done + {key};
    }
  }

  lemma OverlayNone(base: Params, extra: map<string, seq<string>>)
    ensures OverlayKeys(base, extra, {}) == base
  {
  }

  /** Repeated inserts under one key: the last one stays. */
  method InsertAll(base: Params, key: string, values: seq<string>) returns (params: Params)
    ensures params == if values == [] then base else base[key := values[|values| - 1]]
  {
    params := base;
    for i := 0 to |values|
      invariant params == if i == 0 then base else base[key := values[i - 1]]
    {
      params := params[key := values[i]];
    }
  }

  lemma OverlayOne(base: Params, extra: map<string, seq<string>>, done: set<string>, key: string)
    requires key in extra && done <= extra.Keys && key !in done
    ensures var before := OverlayKeys(base, extra, done);
            OverlayKeys(base, extra, done + {key}) ==
            if extra[key] == [] then before else before[key := extra[key][|extra[key]| - 1]]
  {
  }

  /** The provider's own parameters leave this one alone. */
  predicate Unreserved(p: Provider, key: string) {
    key in p.authorizationParams ==> p.authorizationParams[key] == []
  }

  lemma KeysDiffer()
    ensures |"state"| == 5 && |"code_challenge"| == 14 && |"code_challenge_method"| == 21 && |"scope"| == 5
    ensures |"nonce"| == 5 && |"client_id"| == 9 && |"response_type"| == 13 && |"redirect_uri"| == 12
    ensures "state"[1] == 't' && "scope"[1] == 'c' && "nonce"[1] == 'o'
  {
  }

  function Get(m: Params, key: string): Option<string> {
    if key in m then Some(m[key]) else None
  }

  lemma GetPut(m: Params, present: bool, k: string, value: string, key: string)
    ensures Get(PutIf(m, present, k, value), key) == if present && key == k then Some(value) else Get(m, key)
  {
  }

  lemma BaseCarries(p: Provider, callback: string, key: string)
    ensures Get(map["client_id" := p.clientId]["response_type" := "code"]["redirect_uri" := callback], key) ==
            if key == "redirect_uri" then Some(callback)
            else if key == "response_type" then Some("code")
            else if key == "client_id" then Some(p.clientId)
            else None
  {
  }

  lemma ChallengeIsDigest(d: Deployment, verifier: string)
    ensures PkceChallenge(d, verifier) == Encode(d.sha256(verifier))
  {
  }

  lemma CoreCarries(
    d: Deployment, p: Provider, callback: string, state: string, verifier: string, nonce: string, key: string)
    ensures Get(CoreParams(d, p, callback, state, verifier, nonce), key) ==
            Expected(d, p, callback, state, verifier, nonce, key)
  {
    hide Join, Encode, PutIf, PkceChallenge, Get;
    KeysDiffer();
    BaseCarries(p, callback, key);
    assert PkceChallenge(d, verifier) == Encode(d.sha256(verifier)) by { ChallengeIsDigest(d, verifier); }
    var base := map["client_id" := p.clientId]["response_type" := "code"]["redirect_uri" := callback];
    var scoped := PutIf(base, p.scopes != [], "scope", JoinScopes(p.scopes));
    var stated := PutIf(scoped, UsesCheck(p, State) && state != "", "state", state);
    var pkce := UsesCheck(p, Pkce) && verifier != "";
    var challenged := PutIf(stated, pkce, "code_challenge", PkceChallenge(d, verifier));
    var methodNamed := PutIf(challenged, pkce, "code_challenge_method", "S256");
    GetPut(base, p.scopes != [], "scope", JoinScopes(p.scopes), key);
    GetPut(scoped, UsesCheck(p, State) && state != "", "state", state, key);
    GetPut(stated, pkce, "code_challenge", PkceChallenge(d, verifier), key);
    GetPut(challenged, pkce, "code_challenge_method", "S256", key);
    GetPut(methodNamed, UsesCheck(p, Nonce) && nonce != "", "nonce", nonce, key);
  }

  /** What the authorization request says under each of its keys. */
  function Expected(
    d: Deployment, p: Provider, callback: string, state: string, verifier: string, nonce: string, key: string): Option<string>
  {
    var pkce := Pkce in p.checks && verifier != "";
    if key == "client_id" then Some(p.clientId)
    else if key == "response_type" then Some("code")
    else if key == "redirect_uri" then Some(callback)
    else if key == "scope" && p.scopes != [] then Some(Join(p.scopes, " "))
    else if key == "state" && State in p.checks && state != "" then Some(state)
    else if key == "code_challenge" && pkce then Some(Encode(d.sha256(verifier)))
    else if key == "code_challenge_method" && pkce then Some("S256")
    else if key == "nonce" && Nonce in p.checks && nonce != "" then Some(nonce)
    else None
  }

  /** A parameter of the core reaches the provider exactly as long as the provider's own do not replace it. */
  lemma OverlayKeeps(base: Params, p: Provider, key: string)
    ensures var params := Overlay(base, p.authorizationParams);
            if Unreserved(p, key) then (key in params <==> key in base) && (key in base ==> params[key] == base[key])
            else key in params && params[key] == p.authorizationParams[key][|p.authorizationParams[key]| - 1]
  {
  }

  /**
   The authorization URL key by key: what the provider's own parameters do not replace is the client, the code
   flow, the callback, the scopes, the state, the S256 challenge of section 4.2 of RFC 7636 with its method, and
   the nonce; nothing else is there.
   */
  lemma UrlCarries(
    d: Deployment, p: Provider, callback: string, state: string, verifier: string, nonce: string)
    requires p.authorizationEndpoint != ""
    ensures var url := AuthorizationUrl(d, p, callback, state, verifier, nonce).value;
            && url.endpoint == p.authorizationEndpoint
            && (forall key | Unreserved(p, key) ::
                  Get(url.params, key) == Expected(d, p, callback, state, verifier, nonce, key))
            && (forall key | !Unreserved(p, key) ::
                  key in url.params && url.params[key] == p.authorizationParams[key][|p.authorizationParams[key]| - 1])
  {
    hide CoreParams, Overlay, PkceChallenge, Expected;
    var core := CoreParams(d, p, callback, state, verifier, nonce);
    forall key
      ensures Get(core, key) == Expected(d, p, callback, state, verifier, nonce, key)
    {
      CoreCarries(d, p, callback, state, verifier, nonce, key);
    }
    forall key
      ensures var params := Overlay(core, p.authorizationParams);
              if Unreserved(p, key) then (key in params <==> key in core) && (key in core ==> params[key] == core[key])
              else key in params && params[key] == p.authorizationParams[key][|p.authorizationParams[key]| - 1]
    {
      OverlayKeeps(core, p, key);
    }
  }

  /** The parameters the protocol rests on, one by one. */
  lemma UrlEssentials(
    d: Deployment, p: Provider, callback: string, state: string, verifier: string, nonce: string)
    requires p.authorizationEndpoint != ""
    ensures var params := AuthorizationUrl(d, p, callback, state, verifier, nonce).value.params;
            && (Unreserved(p, "redirect_uri") ==> "redirect_uri" in params && params["redirect_uri"] == callback)
            && (Unreserved(p, "state") ==>
                  && ("state" in params <==> State in p.checks && state != "")
                  && ("state" in params ==> params["state"] == state))
            && (Unreserved(p, "code_challenge") ==>
                  && ("code_challenge" in params <==> Pkce in p.checks && verifier != "")
                  && ("code_challenge" in params ==> params["code_challenge"] == Encode(d.sha256(verifier))))
            && (Unreserved(p, "code_challenge_method") ==>
                  && ("code_challenge_method" in params <==> Pkce in p.checks && verifier != "")
                  && ("code_challenge_method" in params ==> params["code_challenge_method"] == "S256"))
  {
    hide AuthorizationUrl, Unreserved;
    UrlCarries(d, p, callback, state, verifier, nonce);
    KeysDiffer();
    assert Expected(d, p, callback, state, verifier, nonce, "redirect_uri") == Some(callback);
    assert Expected(d, p, callback, state, verifier, nonce, "state") == if State in p.checks && state != "" then Some(state) else None;
  }

  function TokenForm(p: Provider, code: string, callback: string, verifier: string): Params {
    var base := map["grant_type" := "authorization_code"]["code" := code]["redirect_uri" := callback];
    var proven := PutIf(base, UsesCheck(p, Pkce) && verifier != "", "code_verifier", verifier);
    var named := PutIf(proven, p.authorizationStyle != "header", "client_id", p.clientId);
    PutIf(named, p.authorizationStyle != "header", "client_secret", p.clientSecret)
  }

  method BuildTokenForm(p: Provider, code: string, callback: string, verifier: string) returns (form: Params)
    ensures form == TokenForm(p, code, callback, verifier)
  {
    form := map["grant_type" := "authorization_code"]["code" := code]["redirect_uri" := callback];
    if UsesCheck(p, Pkce) && verifier != "" {
      form := form["code_verifier" := verifier];
    }
    if p.authorizationStyle != "header" {
      form := form["client_id" := p.clientId];
      form := form["client_secret" := p.clientSecret];
    }
  }

  /**
   The token request key by key: the code grant, the code, the callback, the verifier when there is one, and the
   client's name and secret unless they go into a header.
   */
  lemma FormCarries(p: Provider, code: string, callback: string, verifier: string)
    ensures var form := TokenForm(p, code, callback, verifier);
            && "grant_type" in form && form["grant_type"] == "authorization_code"
            && "code" in form && form["code"] == code
            && "redirect_uri" in form && form["redirect_uri"] == callback
            && ("code_verifier" in form <==> Pkce in p.checks && verifier != "")
            && ("code_verifier" in form ==> form["code_verifier"] == verifier)
            && ("client_id" in form <==> p.authorizationStyle != "header")
            && ("client_id" in form ==> form["client_id"] == p.clientId)
            && ("client_secret" in form <==> p.authorizationStyle != "header")
            && ("client_secret" in form ==> form["client_secret"] == p.clientSecret)
            && form.Keys <= {"grant_type", "code", "redirect_uri", "code_verifier", "client_id", "client_secret"}
  {
    assert |"code_verifier"| == 13 && |"client_secret"| == 13 && "code_verifier"[1] == 'o' && "client_secret"[1] == 'l';
    assert |"code"| == 4 && |"client_id"| == 9 && |"redirect_uri"| == 12 && |"grant_type"| == 10;
  }

  // --- The flow intent -------------------------------------------------------

  const CONNECT := "connect"

  function SignedIntent(d: Deployment, intent: string): string {
    intent + "|" + d.hmac(intent, d.secret)
  }

  predicate VerifyIntent(d: Deployment, cookie: string, intent: string) {
    match SplitOnce(cookie, '|')
    case None => false
    case Some((value, signature)) => value == intent && signature == d.hmac(intent, d.secret)
  }

  /** One cookie value verifies for an intent, the one signed for it, and for no other intent. */
  lemma OnlySignedIntentVerifies(d: Deployment, cookie: string, intent: string)
    ensures '|' !in intent ==> (VerifyIntent(d, cookie, intent) <==> cookie == intent + "|" + d.hmac(intent, d.secret))
    ensures forall other | VerifyIntent(d, cookie, intent) && VerifyIntent(d, cookie, other) :: other == intent
  {
    SplitOnceInverse(cookie, '|');
    if '|' !in intent {
      SplitOnceAt(intent, d.hmac(intent, d.secret), '|');
    }
  }

  // --- Starting --------------------------------------------------------------

  /** A start request: its query, the outcome of discovery and the random draws. */
  datatype StartRequest = StartRequest(
    discovered: bool, connect: string, resourceId: string, callbackForm: string, callbackQuery: string,
    wantsTokens: bool, state: Entropy, verifier: Entropy, nonce: Entropy)

  datatype StartReply = StartFailed | ToProvider(url: Url)

  function CallbackUrl(d: Deployment, p: Provider): string {
    d.origin + "/api/authorization/provider/" + p.id + "/callback"
  }

  function CallbackTarget(d: Deployment, r: StartRequest, cookies: map<string, string>): string {
    if r.callbackForm != "" then r.callbackForm
    else if r.callbackQuery != "" then r.callbackQuery
    else
      var remembered := ReadCookie(cookies, d.jar.CallbackUrl().name);
      if remembered != "" then remembered else d.origin
  }

  /** Does this start write cookies at all? */
  predicate Touches(p: Provider, r: StartRequest) {
    r.discovered && p.authorizationEndpoint != ""
  }

  /** Can the connect markers be written? */
  predicate ConnectRefused(d: Deployment, r: StartRequest) {
    var resource := Trim(r.resourceId);
    r.connect == "1" && (d.secret == "" || (resource != "" && !d.isUuid(resource)))
  }

  /** The markers of a connect start, and their removal by any other. */
  function ConnectHeaders(d: Deployment, r: StartRequest): seq<CookieHeader> {
    if r.connect == "1" then
      var resource := Trim(r.resourceId);
      (if d.secret != "" then Setting(d.jar.FlowIntent(), SignedIntent(d, CONNECT)) else [])
      + (if resource != "" && !ConnectRefused(d, r) then Setting(d.jar.ConnectResource(), resource) else [])
    else Expiring(d.jar.FlowIntent()) + Expiring(d.jar.ConnectResource())
  }

  function StateOf(p: Provider, r: StartRequest): string {
    if UsesCheck(p, State) then RandomString(r.state) else ""
  }

  function VerifierOf(p: Provider, r: StartRequest): string {
    if UsesCheck(p, Pkce) then RandomString(r.verifier) else ""
  }

  function NonceOf(p: Provider, r: StartRequest): string {
    if UsesCheck(p, Nonce) then RandomString(r.nonce) else ""
  }

  function CheckHeaders(d: Deployment, p: Provider, r: StartRequest): seq<CookieHeader> {
    (if UsesCheck(p, State) then Setting(d.jar.State(), StateOf(p, r)) else [])
    + (if UsesCheck(p, Pkce) then Setting(d.jar.PkceCodeVerifier(), VerifierOf(p, r)) else [])
    + (if UsesCheck(p, Nonce) then Setting(d.jar.Nonce(), NonceOf(p, r)) else [])
  }

  function ReturnHeaders(d: Deployment, r: StartRequest, cookies: map<string, string>): seq<CookieHeader> {
    var target := CallbackTarget(d, r, cookies);
    (if target != "" && target != d.origin then Setting(d.jar.CallbackUrl(), target) else [])
    + (if r.wantsTokens then Setting(d.jar.Flow(), "token") else [])
  }

  function StartHeaders(d: Deployment, p: Provider, r: StartRequest, cookies: map<string, string>): seq<CookieHeader> {
    if !Touches(p, r) then []
    else
      ExpiringOauthFlow(d.jar) + ConnectHeaders(d, r)
      + if ConnectRefused(d, r) then [] else CheckHeaders(d, p, r) + ReturnHeaders(d, r, cookies)
  }

  function StartReplyOf(d: Deployment, p: Provider, r: StartRequest): StartReply {
    if !Touches(p, r) || ConnectRefused(d, r) then StartFailed
    else
      match AuthorizationUrl(d, p, CallbackUrl(d, p), StateOf(p, r), VerifierOf(p, r), NonceOf(p, r))
      case None => StartFailed
      case Some(url) => ToProvider(url)
  }

  /**
   Every answer of a start: an error when discovery fails, the provider has no authorization endpoint, or a
   connect is asked for without a secret to sign it or with a resource that is no UUID; else the provider's URL,
   for this request's own draws.
   */
  lemma StartAnswers(d: Deployment, p: Provider, r: StartRequest)
    ensures var refused := !r.discovered || p.authorizationEndpoint == ""
                           || (r.connect == "1" && (d.secret == "" || (Trim(r.resourceId) != "" && !d.isUuid(Trim(r.resourceId)))));
            var url := AuthorizationUrl(
              d, p, d.origin + "/api/authorization/provider/" + p.id + "/callback",
              if State in p.checks then Encode(r.state) else "",
              if Pkce in p.checks then Encode(r.verifier) else "",
              if Nonce in p.checks then Encode(r.nonce) else "");
            StartReplyOf(d, p, r) == if refused || url.None? then StartFailed else ToProvider(url.value)
    ensures StartReplyOf(d, p, r).StartFailed? ==>
              || !r.discovered || p.authorizationEndpoint == ""
              || (r.connect == "1" && (d.secret == "" || (Trim(r.resourceId) != "" && !d.isUuid(Trim(r.resourceId)))))
  {
    hide Trim, CoreParams, Overlay, Encode;
  }

  /** The marker of a connect is accepted exactly in the form in which this deployment signs it. */
  lemma IntentText(d: Deployment, cookies: map<string, string>)
    ensures IntentAccepted(d, cookies) <==>
              d.secret != "" && ReadCookie(cookies, d.jar.FlowIntent().name) == "connect|" + d.hmac("connect", d.secret)
  {
    OnlySignedIntentVerifies(d, ReadCookie(cookies, d.jar.FlowIntent().name), CONNECT);
    assert CONNECT + "|" == "connect|";
  }

  /** Writes or clears the connect markers; reports whether the start may go on. */
  method WriteConnect(d: Deployment, w: ResponseWriter, r: StartRequest) returns (proceed: bool)
    modifies w
    ensures w.headers == old(w.headers) + ConnectHeaders(d, r)
    ensures proceed <==> !ConnectRefused(d, r)
  {
    hide Setting, Expiring, SignedIntent, Trim;
    if r.connect == "1" {
      if d.secret == "" {
        return false;
      }
      w.SetCookie(d.jar.FlowIntent(), SignedIntent(d, CONNECT));
      var resource := Trim(r.resourceId);
      if resource != "" {
        if !d.isUuid(resource) {
          return false;
        }
        w.SetCookie(d.jar.ConnectResource(), resource);
      }
    } else {
      w.ExpireCookie(d.jar.FlowIntent());
      w.ExpireCookie(d.jar.ConnectResource());
    }
    return true;
  }

  /** Draws and remembers the values the provider asks to be checked. */
  method WriteChecks(d: Deployment, w: ResponseWriter, p: Provider, r: StartRequest)
    returns (state: string, verifier: string, nonce: string)
    modifies w
    ensures w.headers == old(w.headers) + CheckHeaders(d, p, r)
    ensures state == StateOf(p, r) && verifier == VerifierOf(p, r) && nonce == NonceOf(p, r)
  {
    hide Setting, RandomString;
    state, verifier, nonce := "", "", "";
    if UsesCheck(p, State) {
      state := RandomString(r.state);
      w.SetCookie(d.jar.State(), state);
    }
    if UsesCheck(p, Pkce) {
      verifier := RandomString(r.verifier);
      w.SetCookie(d.jar.PkceCodeVerifier(), verifier);
    }
    if UsesCheck(p, Nonce) {
      nonce := RandomString(r.nonce);
      w.SetCookie(d.jar.Nonce(), nonce);
    }
  }

  /** Remembers where to return and whether tokens are wanted. */
  method WriteReturn(d: Deployment, w: ResponseWriter, r: StartRequest, cookies: map<string, string>)
    modifies w
    ensures w.headers == old(w.headers) + ReturnHeaders(d, r, cookies)
  {
    hide Setting;
    var target := CallbackTarget(d, r, cookies);
    if target != "" && target != d.origin {
      w.SetCookie(d.jar.CallbackUrl(), target);
    }
    if r.wantsTokens {
      w.SetCookie(d.jar.Flow(), "token");
    }
  }

  method StartOauth(d: Deployment, w: ResponseWriter, p: Provider, r: StartRequest, cookies: map<string, string>)
    returns (reply: StartReply)
    modifies w
    ensures w.headers == old(w.headers) + StartHeaders(d, p, r, cookies)
    ensures reply == StartReplyOf(d, p, r)
  {
    hide ExpiringOauthFlow, ConnectHeaders, ConnectRefused, CheckHeaders, ReturnHeaders;
    hide StateOf, VerifierOf, NonceOf, AuthorizationUrl, CallbackUrl;
    if !r.discovered || p.authorizationEndpoint == "" {
      return StartFailed;
    }
    w.ExpireOauthFlowCookies(d.jar);
    var proceed := WriteConnect(d, w, r);
    if !proceed {
      return StartFailed;
    }
    var state, verifier, nonce := WriteChecks(d, w, p, r);
    WriteReturn(d, w, r, cookies);
    var url := BuildAuthorizationUrl(d, p, CallbackUrl(d, p), state, verifier, nonce);
    if url.None? {
      return StartFailed;
    }
    return ToProvider(url.value);
  }

  // --- The callback ------------------------------------------------------------

  /** The provider's redirect back: its parameters. */
  datatype CallbackRequest = CallbackRequest(error: string, code: string, state: string)

  /** What the provider and the application answer while the callback is handled. */
  datatype External = External(
    discovered: bool, exchanged: bool, userInfo: bool, profile: bool, resolved: Option<string>,
    connected: bool, authorized: Option<string>)

  datatype Reason =
    | ProviderError | MissingCode | StateMismatch | DiscoveryFailed | ExchangeFailed | UserInfoFailed
    | ProfileFailed | InvalidUser | ConnectFailed | AuthorizeFailed

  datatype CallbackReply =
    | ErrorPage(reason: Reason)
    | Connected(userId: string, resourceId: string)
    | SignedIn(userId: string, sessionId: string)

  /** The reply, and the form posted to the token endpoint, if it came to that. */
  datatype CallbackResult = CallbackResult(reply: CallbackReply, form: Option<Params>)

  predicate StateAccepted(d: Deployment, q: CallbackRequest, cookies: map<string, string>) {
    var expected := ReadCookie(cookies, d.jar.State().name);
    expected != "" && expected == q.state
  }

  /** The connect marker of this request is the one this deployment signs. */
  predicate IntentAccepted(d: Deployment, cookies: map<string, string>) {
    && d.secret != ""
    && var cookie := ReadCookie(cookies, d.jar.FlowIntent().name);
       cookie != "" && VerifyIntent(d, cookie, CONNECT)
  }

  predicate Reaches(d: Deployment, p: Provider, q: CallbackRequest, cookies: map<string, string>) {
    q.error == "" && q.code != "" && (UsesCheck(p, State) ==> StateAccepted(d, q, cookies))
  }

  function Verifier(d: Deployment, p: Provider, cookies: map<string, string>): string {
    if UsesCheck(p, Pkce) then ReadCookie(cookies, d.jar.PkceCodeVerifier().name) else ""
  }

  function FormOf(d: Deployment, p: Provider, q: CallbackRequest, cookies: map<string, string>): Params {
    TokenForm(p, q.code, CallbackUrl(d, p), Verifier(d, p, cookies))
  }

  predicate Completes(p: Provider, ext: External) {
    && ext.discovered && p.tokenEndpoint != "" && ext.exchanged && ext.userInfo && ext.profile
    && ext.resolved.Some? && ext.resolved.value != ""
  }

  /** Why a callback that got past the state check stops before the sign-in or connect. */
  function Stop(p: Provider, ext: External): Reason {
    if !ext.discovered then DiscoveryFailed
    else if p.tokenEndpoint == "" || !ext.exchanged then ExchangeFailed
    else if !ext.userInfo then UserInfoFailed
    else if !ext.profile then ProfileFailed
    else InvalidUser
  }

  function CompletionReply(d: Deployment, user: string, ext: External, cookies: map<string, string>): CallbackReply {
    if IntentAccepted(d, cookies) then
      var resource := Trim(ReadCookie(cookies, d.jar.ConnectResource().name));
      if resource != "" && !ext.connected then ErrorPage(ConnectFailed) else Connected(user, resource)
    else if ext.authorized.None? then ErrorPage(AuthorizeFailed)
    else SignedIn(user, ext.authorized.value)
  }

  function CallbackResultOf(
    d: Deployment, p: Provider, q: CallbackRequest, ext: External, cookies: map<string, string>): CallbackResult
  {
    if q.error != "" then CallbackResult(ErrorPage(ProviderError), None)
    else if q.code == "" then CallbackResult(ErrorPage(MissingCode), None)
    else if !Reaches(d, p, q, cookies) then CallbackResult(ErrorPage(StateMismatch), None)
    else
      CallbackResult(
        if Completes(p, ext) then CompletionReply(d, ext.resolved.value, ext, cookies) else ErrorPage(Stop(p, ext)),
        if ext.discovered && p.tokenEndpoint != "" then Some(FormOf(d, p, q, cookies)) else None)
  }

  /** The state the provider returned is the non-empty one in the browser's state cookie. */
  predicate StateReturned(d: Deployment, q: CallbackRequest, cookies: map<string, string>) {
    && d.jar.State().name in cookies
    && cookies[d.jar.State().name] != "" && cookies[d.jar.State().name] == q.state
  }

  /**
   The gate: with the state check on, a callback whose state is missing or differs ends in an error page, and
   its code is not redeemed. The code is redeemed exactly if the provider reports no error, there is a code, the
   state is the remembered one where that is checked, and the token endpoint is known.
   */
  lemma StateGate(d: Deployment, p: Provider, q: CallbackRequest, ext: External, cookies: map<string, string>)
    ensures var result := CallbackResultOf(d, p, q, ext, cookies);
            && (State in p.checks && !StateReturned(d, q, cookies) ==> result.reply.ErrorPage? && result.form.None?)
            && (result.form.Some? <==>
                  && q.error == "" && q.code != "" && (State in p.checks ==> StateReturned(d, q, cookies))
                  && ext.discovered && p.tokenEndpoint != "")
            && (!result.reply.ErrorPage? ==> result.form.Some?)
  {
    hide Trim, TokenForm, IntentAccepted;
  }

  /** A callback that could complete got past the checks exactly if its code is redeemed. */
  lemma RedeemedIsReached(d: Deployment, p: Provider, q: CallbackRequest, ext: External, cookies: map<string, string>)
    ensures StateAccepted(d, q, cookies) <==> StateReturned(d, q, cookies)
    ensures CallbackResultOf(d, p, q, ext, cookies).form.Some? <==>
              Reaches(d, p, q, cookies) && ext.discovered && p.tokenEndpoint != ""
  {
    hide Trim, TokenForm, IntentAccepted;
  }

  /**
   Every answer of a callback. The error pages come in the order of the checks; past them all it is a connect
   for the resource in its cookie, if the marker is the one this deployment signs, and else a sign-in.
   */
  lemma CallbackAnswers(d: Deployment, p: Provider, q: CallbackRequest, ext: External, cookies: map<string, string>)
    ensures var reply := CallbackResultOf(d, p, q, ext, cookies).reply;
            var marked := d.secret != "" && ReadCookie(cookies, d.jar.FlowIntent().name) == "connect|" + d.hmac("connect", d.secret);
            var resource := Trim(ReadCookie(cookies, d.jar.ConnectResource().name));
            reply ==
            if q.error != "" then ErrorPage(ProviderError)
            else if q.code == "" then ErrorPage(MissingCode)
            else if State in p.checks && !StateReturned(d, q, cookies) then ErrorPage(StateMismatch)
            else if !ext.discovered then ErrorPage(DiscoveryFailed)
            else if p.tokenEndpoint == "" || !ext.exchanged then ErrorPage(ExchangeFailed)
            else if !ext.userInfo then ErrorPage(UserInfoFailed)
            else if !ext.profile then ErrorPage(ProfileFailed)
            else if ext.resolved.None? || ext.resolved.value == "" then ErrorPage(InvalidUser)
            else if marked then
              if resource != "" && !ext.connected then ErrorPage(ConnectFailed) else Connected(ext.resolved.value, resource)
            else if ext.authorized.None? then ErrorPage(AuthorizeFailed)
            else SignedIn(ext.resolved.value, ext.authorized.value)
  {
    hide Trim, TokenForm, IntentAccepted;
    IntentText(d, cookies);
  }

  /**
   The token request of a callback: its code, the verifier its browser held, and the same callback address that
   a start of this provider put into the authorization URL, as section 4.1.3 of RFC 6749 needs.
   */
  lemma RedirectMatches(
    d: Deployment, p: Provider, q: CallbackRequest, ext: External, cookies: map<string, string>, r: StartRequest)
    requires CallbackResultOf(d, p, q, ext, cookies).form.Some?
    ensures var form := CallbackResultOf(d, p, q, ext, cookies).form.value;
            && "code" in form && form["code"] == q.code
            && ("code_verifier" in form <==> Pkce in p.checks && ReadCookie(cookies, d.jar.PkceCodeVerifier().name) != "")
            && ("code_verifier" in form ==> form["code_verifier"] == ReadCookie(cookies, d.jar.PkceCodeVerifier().name))
            && "redirect_uri" in form
            && (StartReplyOf(d, p, r).ToProvider? && Unreserved(p, "redirect_uri") ==>
                  var params := StartReplyOf(d, p, r).url.params;
                  "redirect_uri" in params && params["redirect_uri"] == form["redirect_uri"])
  {
    hide TokenForm, Reaches, CompletionReply, CallbackUrl, Unreserved, ReadCookie;
    FormCarries(p, q.code, CallbackUrl(d, p), Verifier(d, p, cookies));
    if StartReplyOf(d, p, r).ToProvider? {
      UrlEssentials(d, p, CallbackUrl(d, p), StateOf(p, r), VerifierOf(p, r), NonceOf(p, r));
    }
  }

  function CompletionHeaders(d: Deployment, ext: External, cookies: map<string, string>): seq<CookieHeader> {
    (if d.secret != "" then Expiring(d.jar.FlowIntent()) else [])
    + if IntentAccepted(d, cookies) then Expiring(d.jar.ConnectResource())
      else if ext.authorized.Some? && ext.authorized.value != "" then Setting(d.session, ext.authorized.value)
      else []
  }

  /** The token-flow preference and the state are read and cleared first. */
  function StateHeaders(d: Deployment, p: Provider, cookies: map<string, string>): seq<CookieHeader> {
    (if ReadCookie(cookies, d.jar.Flow().name) == "token" then Expiring(d.jar.Flow()) else [])
    + (if UsesCheck(p, State) then Expiring(d.jar.State()) else [])
  }

  function InnerHeaders(
    d: Deployment, p: Provider, q: CallbackRequest, ext: External, cookies: map<string, string>): seq<CookieHeader>
  {
    if q.error != "" || q.code == "" then []
    else
      StateHeaders(d, p, cookies)
      + if !Reaches(d, p, q, cookies) then []
        else
          (if UsesCheck(p, Pkce) then Expiring(d.jar.PkceCodeVerifier()) else [])
          + (if Completes(p, ext) then CompletionHeaders(d, ext, cookies) else [])
  }

  /** Whatever happens, the six transient cookies are cleared at the end. */
  function CallbackHeaders(
    d: Deployment, p: Provider, q: CallbackRequest, ext: External, cookies: map<string, string>): seq<CookieHeader>
  {
    InnerHeaders(d, p, q, ext, cookies) + ExpiringOauthFlow(d.jar)
  }

  method CompleteProviderConnect(
    d: Deployment, w: ResponseWriter, user: string, ext: External, cookies: map<string, string>)
    returns (reply: CallbackReply)
    modifies w
    ensures w.headers == old(w.headers) + Expiring(d.jar.ConnectResource())
    ensures IntentAccepted(d, cookies) ==> reply == CompletionReply(d, user, ext, cookies)
  {
    var resource := Trim(ReadCookie(cookies, d.jar.ConnectResource().name));
    w.ExpireCookie(d.jar.ConnectResource());
    if resource != "" {
      if !ext.connected {
        return ErrorPage(ConnectFailed);
      }
    }
    return Connected(user, resource);
  }

  method CompleteSignIn(d: Deployment, w: ResponseWriter, user: string, ext: External)
    returns (reply: CallbackReply)
    modifies w
    ensures w.headers == old(w.headers) +
              if ext.authorized.Some? && ext.authorized.value != "" then Setting(d.session, ext.authorized.value) else []
    ensures reply == if ext.authorized.None? then ErrorPage(AuthorizeFailed) else SignedIn(user, ext.authorized.value)
  {
    if ext.authorized.None? {
      return ErrorPage(AuthorizeFailed);
    }
    if ext.authorized.value != "" {
      w.SetCookie(d.session, ext.authorized.value);
    }
    return SignedIn(user, ext.authorized.value);
  }

  /** Reads and clears the intent cookie. */
  method ConsumeFlowIntent(d: Deployment, w: ResponseWriter, cookies: map<string, string>) returns (accepted: bool)
    modifies w
    ensures accepted <==> IntentAccepted(d, cookies)
    ensures w.headers == old(w.headers) + if d.secret != "" then Expiring(d.jar.FlowIntent()) else []
  {
    if d.secret == "" {
      return false;
    }
    var cookie := ReadCookie(cookies, d.jar.FlowIntent().name);
    w.ExpireCookie(d.jar.FlowIntent());
    if cookie == "" {
      return false;
    }
    return VerifyIntent(d, cookie, CONNECT);
  }

  /** The last part of the callback: connect or sign in. */
  method Complete(d: Deployment, w: ResponseWriter, user: string, ext: External, cookies: map<string, string>)
    returns (reply: CallbackReply)
    modifies w
    ensures w.headers == old(w.headers) + CompletionHeaders(d, ext, cookies)
    ensures reply == CompletionReply(d, user, ext, cookies)
  {
    hide Expiring, Setting, IntentAccepted, ReadCookie, Trim;
    var connect := ConsumeFlowIntent(d, w, cookies);
    if connect {
      reply := CompleteProviderConnect(d, w, user, ext, cookies);
    } else {
      reply := CompleteSignIn(d, w, user, ext);
    }
  }

  method CheckState(d: Deployment, w: ResponseWriter, p: Provider, q: CallbackRequest, cookies: map<string, string>)
    returns (accepted: bool)
    modifies w
    ensures w.headers == old(w.headers) + StateHeaders(d, p, cookies)
    ensures accepted <==> (UsesCheck(p, State) ==> StateAccepted(d, q, cookies))
  {
    if ReadCookie(cookies, d.jar.Flow().name) == "token" {
      w.ExpireCookie(d.jar.Flow());
    }
    if UsesCheck(p, State) {
      var expected := ReadCookie(cookies, d.jar.State().name);
      w.ExpireCookie(d.jar.State());
      if expected == "" || expected != q.state {
        return false;
      }
    }
    return true;
  }

  method OauthCallbackInner(
    d: Deployment, w: ResponseWriter, p: Provider, q: CallbackRequest, ext: External, cookies: map<string, string>)
    returns (result: CallbackResult)
    modifies w
    ensures w.headers == old(w.headers) + InnerHeaders(d, p, q, ext, cookies)
    ensures result == CallbackResultOf(d, p, q, ext, cookies)
  {
    hide Expiring, StateHeaders, StateAccepted, CompletionHeaders, CompletionReply, TokenForm, CallbackUrl;
    if q.error != "" {
      return CallbackResult(ErrorPage(ProviderError), None);
    }
    if q.code == "" {
      return CallbackResult(ErrorPage(MissingCode), None);
    }
    var accepted := CheckState(d, w, p, q, cookies);
    if !accepted {
      return CallbackResult(ErrorPage(StateMismatch), None);
    }
    var verifier := "";
    if UsesCheck(p, Pkce) {
      verifier := ReadCookie(cookies, d.jar.PkceCodeVerifier().name);
      w.ExpireCookie(d.jar.PkceCodeVerifier());
    }
    if !ext.discovered {
      return CallbackResult(ErrorPage(DiscoveryFailed), None);
    }
    if p.tokenEndpoint == "" {
      return CallbackResult(ErrorPage(ExchangeFailed), None);
    }
    var form := BuildTokenForm(p, q.code, CallbackUrl(d, p), verifier);
    if !Completes(p, ext) {
      return CallbackResult(ErrorPage(Stop(p, ext)), Some(form));
    }
    var reply := Complete(d, w, ext.resolved.value, ext, cookies);
    return CallbackResult(reply, Some(form));
  }

  method OauthCallback(
    d: Deployment, w: ResponseWriter, p: Provider, q: CallbackRequest, ext: External, cookies: map<string, string>)
    returns (result: CallbackResult)
    modifies w
    ensures w.headers == old(w.headers) + CallbackHeaders(d, p, q, ext, cookies)
    ensures result == CallbackResultOf(d, p, q, ext, cookies)
  {
    result := OauthCallbackInner(d, w, p, q, ext, cookies);
    w.ExpireOauthFlowCookies(d.jar);
  }
}
