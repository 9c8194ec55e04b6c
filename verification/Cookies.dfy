/**
 Cookie definitions, the header buffer they are written to, and the browser's store
 (src/cookies.rs, src/response.rs; section 5.3 of RFC 6265).
 */
module Cookies {
  import opened Wrappers
  import opened Durations

  datatype SameSite = Strict | Lax | Unrestricted

  datatype CookieOption = CookieOption(
    name: string, httpOnly: bool, sameSite: Option<SameSite>, path: string, secure: bool,
    maxAge: Duration, domain: string)

  const NO_MAX_AGE := Duration(0, 0)
  const QUARTER_HOUR := Duration(15 * 60, 0)

  /** Overrides of single definitions; an absent one keeps the default. */
  datatype CookieOptions = CookieOptions(
    callbackUrl: Option<CookieOption>, pkceCodeVerifier: Option<CookieOption>,
    state: Option<CookieOption>, nonce: Option<CookieOption>)

  const NO_OVERRIDES := CookieOptions(None, None, None, None)

  datatype CookieJar = CookieJar(secure: bool, opts: CookieOptions) {
    /** Fields set on the override win, except that the two booleans can only be turned on. */
    function Def(over: Option<CookieOption>, base: CookieOption): (out: CookieOption)
      ensures base.httpOnly ==> out.httpOnly
      ensures base.secure ==> out.secure
    {
      match over
      case None => base
      case Some(o) => CookieOption(
        if o.name != "" then o.name else base.name,
        base.httpOnly || o.httpOnly,
        if o.sameSite.Some? then o.sameSite else base.sameSite,
        if o.path != "" then o.path else base.path,
        base.secure || o.secure,
        if o.maxAge != NO_MAX_AGE then o.maxAge else base.maxAge,
        if o.domain != "" then o.domain else base.domain)
    }

    function Base(name: string, maxAge: Duration): CookieOption {
      CookieOption((if secure then "__Secure-" else "") + name, true, Some(Lax), "/", secure, maxAge, "")
    }

    function CallbackUrl(): CookieOption { Def(opts.callbackUrl, Base("authjs.callback-url", NO_MAX_AGE)) }
    function PkceCodeVerifier(): CookieOption { Def(opts.pkceCodeVerifier, Base("authjs.pkce.code_verifier", QUARTER_HOUR)) }
    function State(): CookieOption { Def(opts.state, Base("authjs.state", QUARTER_HOUR)) }
    function Nonce(): CookieOption { Def(opts.nonce, Base("authjs.nonce", QUARTER_HOUR)) }
    function Flow(): CookieOption { Base("authjs.flow", QUARTER_HOUR) }
    function FlowIntent(): CookieOption { Base("authjs.flow-intent", QUARTER_HOUR) }
    function ConnectResource(): CookieOption { Base("authjs.connect-resource", QUARTER_HOUR) }
  }

  // --- Writing -------------------------------------------------------------

  /** A Set-Cookie header. */
  datatype CookieHeader = CookieHeader(option: CookieOption, value: string, maxAge: Option<int>)

  /** What `HeaderValue::from_str` admits. */
  predicate HeaderSafe(s: string) {
    forall c | c in s :: 32 <= c as int < 127 || c == '\t'
  }

  predicate Renders(opt: CookieOption) {
    HeaderSafe(opt.name) && HeaderSafe(opt.path) && HeaderSafe(opt.domain)
  }

  function Appended(opt: CookieOption, value: string, maxAge: Option<int>): seq<CookieHeader> {
    if Renders(opt) && HeaderSafe(value) then [CookieHeader(opt, value, maxAge)] else []
  }

  /** Zero leaves a session cookie. */
  function MaxAge(d: Duration): Option<int> {
    if d == NO_MAX_AGE then None else Some(if d.secs < 0x7FFF_FFFF_FFFF_FFFF then d.secs else 0x7FFF_FFFF_FFFF_FFFF)
  }

  function Setting(opt: CookieOption, value: string): seq<CookieHeader> {
    Appended(opt, value, MaxAge(opt.maxAge))
  }

  function Expiring(opt: CookieOption): seq<CookieHeader> {
    Appended(opt, "", Some(-1))
  }

  /** The six transient cookies; the flow intent is not among them. */
  function ExpiringOauthFlow(jar: CookieJar): seq<CookieHeader> {
    Expiring(jar.State()) + Expiring(jar.PkceCodeVerifier()) + Expiring(jar.Nonce())
    + Expiring(jar.CallbackUrl()) + Expiring(jar.Flow()) + Expiring(jar.ConnectResource())
  }

  /** Headers are buffered in order and applied to the finished response. */
  class ResponseWriter {
    var headers: seq<CookieHeader>

    constructor ()
      ensures headers == []
    {
      headers := [];
    }

    /** A cookie that does not render as a header value is dropped. */
    method AppendCookie(opt: CookieOption, value: string, maxAge: Option<int>)
      modifies this
      ensures headers == old(headers) + Appended(opt, value, maxAge)
    {
      if Renders(opt) && HeaderSafe(value) {
        headers := headers + [CookieHeader(opt, value, maxAge)];
      }
    }

    method SetCookie(opt: CookieOption, value: string)
      modifies this
      ensures headers == old(headers) + Setting(opt, value)
    {
      var maxAge := None;
      if opt.maxAge != NO_MAX_AGE {
        maxAge := MaxAge(opt.maxAge);
      }
      AppendCookie(opt, value, maxAge);
    }

    method ExpireCookie(opt: CookieOption)
      modifies this
      ensures headers == old(headers) + Expiring(opt)
    {
      AppendCookie(opt, "", Some(-1));
    }

    method ExpireOauthFlowCookies(jar: CookieJar)
      modifies this
      ensures headers == old(headers) + ExpiringOauthFlow(jar)
    {
      ExpireCookie(jar.State());
      ExpireCookie(jar.PkceCodeVerifier());
      ExpireCookie(jar.Nonce());
      ExpireCookie(jar.CallbackUrl());
      ExpireCookie(jar.Flow());
      ExpireCookie(jar.ConnectResource());
    }
  }

  // --- The browser ---------------------------------------------------------

  /** A stored cookie; without a deadline it lasts until the browser drops it. Times are in seconds. */
  datatype Stored = Stored(value: string, expires: Option<int>)

  type Browser = map<string, Stored>

  /** One header, received at time `now`. */
  function Receive(b: Browser, now: int, h: CookieHeader): Browser {
    match h.maxAge
    case Some(seconds) =>
      if seconds <= 0 then b - {h.option.name}
      else b[h.option.name := Stored(h.value, Some(now + seconds))]
    case None => b[h.option.name := Stored(h.value, None)]
  }

  /** The headers of one response, in order. */
  function ReceiveAll(b: Browser, now: int, hs: seq<CookieHeader>): Browser {
    if hs == [] then b else Receive(ReceiveAll(b, now, hs[..|hs| - 1]), now, hs[|hs| - 1])
  }

  predicate Unexpired(c: Stored, now: int) {
    c.expires.Some? ==> now <= c.expires.value
  }

  /** The cookies of a request sent at time `now`. */
  function Sent(b: Browser, now: int): map<string, string> {
    map name | name in b && Unexpired(b[name], now) :: b[name].value
  }

  /** `read_cookie`. */
  function ReadCookie(cookies: map<string, string>, name: string): string {
    if name in cookies then cookies[name] else ""
  }

  /** A cookie that is set is sent for its whole age and not longer; with age zero until the browser drops it. */
  lemma SetLasts(b: Browser, now: int, opt: CookieOption, value: string, later: int)
    requires Renders(opt) && HeaderSafe(value) && now <= later && opt.maxAge.secs < 0x7FFF_FFFF_FFFF_FFFF
    ensures var sent := Sent(ReceiveAll(b, now, Setting(opt, value)), later);
            && (opt.name in sent <==>
                  opt.maxAge == Duration(0, 0) || (opt.maxAge.secs > 0 && later - now <= opt.maxAge.secs))
            && (opt.name in sent ==> sent[opt.name] == value)
  {
    assert ReceiveAll(b, now, []) == b;
  }

  // --- Names ---------------------------------------------------------------

  /** The cookies of the protocol are told apart by name, and every one of them renders. */
  predicate Usable(jar: CookieJar, session: CookieOption) {
    var names := Names(jar, session);
    && (forall i, j | 0 <= i < j < |names| :: names[i] != names[j])
    && Renders(jar.State()) && Renders(jar.PkceCodeVerifier()) && Renders(jar.Nonce())
    && Renders(jar.CallbackUrl()) && Renders(jar.Flow()) && Renders(jar.FlowIntent()) && Renders(jar.ConnectResource())
  }

  function Names(jar: CookieJar, session: CookieOption): seq<string> {
    [jar.State().name, jar.PkceCodeVerifier().name, jar.Nonce().name, jar.CallbackUrl().name,
     jar.Flow().name, jar.FlowIntent().name, jar.ConnectResource().name, session.name]
  }

  lemma DefaultRenders(jar: CookieJar, name: string, maxAge: Duration)
    requires HeaderSafe(name)
    ensures Renders(jar.Base(name, maxAge))
  {
    assert HeaderSafe("__Secure-") && HeaderSafe("/") && HeaderSafe("");
  }

  lemma DefaultChecksRender(jar: CookieJar)
    requires jar.opts == NO_OVERRIDES
    ensures Renders(jar.State()) && Renders(jar.PkceCodeVerifier()) && Renders(jar.Nonce())
  {
    hide Renders;
    DefaultRenders(jar, "authjs.state", QUARTER_HOUR);
    DefaultRenders(jar, "authjs.pkce.code_verifier", QUARTER_HOUR);
    DefaultRenders(jar, "authjs.nonce", QUARTER_HOUR);
  }

  lemma DefaultFlowRenders(jar: CookieJar)
    requires jar.opts == NO_OVERRIDES
    ensures Renders(jar.CallbackUrl()) && Renders(jar.Flow())
  {
    hide Renders;
    DefaultRenders(jar, "authjs.callback-url", NO_MAX_AGE);
    DefaultRenders(jar, "authjs.flow", QUARTER_HOUR);
  }

  lemma ConnectRenders(jar: CookieJar)
    ensures Renders(jar.FlowIntent()) && Renders(jar.ConnectResource())
  {
    hide Renders;
    DefaultRenders(jar, "authjs.flow-intent", QUARTER_HOUR);
    DefaultRenders(jar, "authjs.connect-resource", QUARTER_HOUR);
  }

  lemma DefaultNamesDistinct(jar: CookieJar, session: CookieOption)
    requires jar.opts == NO_OVERRIDES && session.name == "cnf.id"
    ensures var names := Names(jar, session); forall i, j | 0 <= i < j < |names| :: names[i] != names[j]
  {
    var names := Names(jar, session);
    var k := if jar.secure then 9 else 0;
    assert |names[0]| == k + 12 && |names[1]| == k + 25 && |names[2]| == k + 12 && |names[3]| == k + 19;
    assert |names[4]| == k + 11 && |names[5]| == k + 18 && |names[6]| == k + 23 && |names[7]| == 6;
    assert names[0][k + 7] == 's' && names[2][k + 7] == 'n';
  }

  /** The default definitions are usable on both schemes, next to the default session cookie. */
  lemma DefaultNamesUsable(secure: bool, session: CookieOption)
    requires session.name == "cnf.id"
    ensures Usable(CookieJar(secure, NO_OVERRIDES), session)
  {
    hide Renders;
    var jar := CookieJar(secure, NO_OVERRIDES);
    DefaultChecksRender(jar);
    DefaultFlowRenders(jar);
    ConnectRenders(jar);
    DefaultNamesDistinct(jar, session);
  }

  /** What an override changes: each field it sets, and the two protections only upwards. */
  lemma OverrideFields(jar: CookieJar, o: CookieOption, base: CookieOption)
    ensures jar.Def(None, base) == base
    ensures var out := jar.Def(Some(o), base);
            && (o.name != "" ==> out.name == o.name) && (o.name == "" ==> out.name == base.name)
            && (o.path != "" ==> out.path == o.path) && (o.path == "" ==> out.path == base.path)
            && (o.domain != "" ==> out.domain == o.domain) && (o.domain == "" ==> out.domain == base.domain)
            && (o.sameSite.Some? ==> out.sameSite == o.sameSite) && (o.sameSite.None? ==> out.sameSite == base.sameSite)
            && (o.maxAge != Duration(0, 0) ==> out.maxAge == o.maxAge)
            && (o.maxAge == Duration(0, 0) ==> out.maxAge == base.maxAge)
            && (out.secure <==> o.secure || base.secure) && (out.httpOnly <==> o.httpOnly || base.httpOnly)
  {
  }

  /** The default cookies: hidden from scripts, lax, a quarter of an hour; the return target lasts for the session. */
  lemma DefaultCookies(secure: bool)
    ensures var jar, prefix := CookieJar(secure, NO_OVERRIDES), if secure then "__Secure-" else "";
            && jar.State() == CookieOption(prefix + "authjs.state", true, Some(Lax), "/", secure, Duration(900, 0), "")
            && jar.Nonce() == CookieOption(prefix + "authjs.nonce", true, Some(Lax), "/", secure, Duration(900, 0), "")
            && jar.PkceCodeVerifier() ==
                 CookieOption(prefix + "authjs.pkce.code_verifier", true, Some(Lax), "/", secure, Duration(900, 0), "")
            && jar.CallbackUrl() == CookieOption(prefix + "authjs.callback-url", true, Some(Lax), "/", secure, Duration(0, 0), "")
    ensures forall opts :: var jar, prefix := CookieJar(secure, opts), if secure then "__Secure-" else "";
            && jar.Flow() == CookieOption(prefix + "authjs.flow", true, Some(Lax), "/", secure, Duration(900, 0), "")
            && jar.FlowIntent() == CookieOption(prefix + "authjs.flow-intent", true, Some(Lax), "/", secure, Duration(900, 0), "")
            && jar.ConnectResource() ==
                 CookieOption(prefix + "authjs.connect-resource", true, Some(Lax), "/", secure, Duration(900, 0), "")
  {
  }
}
