/**
 Access and refresh tokens (src/token.rs). A signed token is identified with its claims; a text that
 this deployment's secret did not sign is `Foreign`. Times are microseconds since the Unix epoch.
 */
module Tokens {
  import opened Wrappers
  import opened Text
  import opened Durations
  import opened Roles

  const SECOND := 1_000_000
  const DEFAULT_ACCESS_TOKEN_DURATION := "60s"
  const DEFAULT_REFRESH_TOKEN_DURATION := "1y"

  type RoleList = seq<Value>

  datatype Lifetimes = Lifetimes(access: string, refresh: string, signingMethod: string, leeway: nat)

  datatype AuthorizeOptions = AuthorizeOptions(userId: string, content: string, roles: RoleList)

  const NO_CONTENT := "{}"

  datatype AccessClaims = AccessClaims(userId: string, content: string, roles: RoleList, exp: int, iat: int)

  datatype RefreshClaims = RefreshClaims(
    sessionId: string, userId: string, accessTokenLifetime: string, signingMethod: string,
    content: string, roles: RoleList, exp: int, iat: int)

  datatype Token = Access(access: AccessClaims) | Refresh(refresh: RefreshClaims) | Foreign

  datatype TokenPair = TokenPair(access: AccessClaims, refresh: RefreshClaims)

  /** `DateTime::timestamp`. */
  function Timestamp(time: nat): nat {
    time / SECOND
  }

  function AccessDuration(t: Lifetimes): Result<Duration, DurationError> {
    ParseCustomDuration(t.access, DEFAULT_ACCESS_TOKEN_DURATION)
  }

  function RefreshDuration(t: Lifetimes): Result<Duration, DurationError> {
    ParseCustomDuration(t.refresh, DEFAULT_REFRESH_TOKEN_DURATION)
  }

  /** The time a duration of whole seconds later. */
  function After(now: nat, d: Duration): nat {
    now + d.secs * SECOND
  }

  /** A new access token for a loaded session: the caller's identity, the session user's roles. */
  function RefreshAccessToken(t: Lifetimes, claims: RefreshClaims, roles: RoleList, now: nat): Option<AccessClaims> {
    var d := AccessDuration(t);
    if d.Failure? then None
    else Some(AccessClaims(claims.userId, NO_CONTENT, roles, Timestamp(After(now, d.value)), Timestamp(now)))
  }

  /** Both tokens of a sign-in, from one reading of the clock. */
  function SignTokenPair(t: Lifetimes, o: AuthorizeOptions, sessionId: string, now: nat): Option<TokenPair> {
    var access, refresh := AccessDuration(t), RefreshDuration(t);
    if sessionId == "" || access.Failure? || refresh.Failure? then None
    else
      Some(TokenPair(
        AccessClaims(o.userId, o.content, o.roles, Timestamp(After(now, access.value)), Timestamp(now)),
        RefreshClaims(sessionId, o.userId, GoDurationString(access.value), t.signingMethod, o.content, o.roles,
                      Timestamp(After(now, refresh.value)), Timestamp(now))))
  }

  /** Only a refresh token of ours that has not run out, with the library's leeway, has claims. */
  function ExtractToken(t: Lifetimes, token: Token, now: nat): Option<RefreshClaims> {
    if token.Refresh? && token.refresh.exp >= Timestamp(now) - t.leeway then Some(token.refresh) else None
  }

  /**
   A token is taken for a refresh token exactly if this deployment signed it as one and its expiry is no further
   back than the leeway.
   */
  lemma ExtractAccepts(t: Lifetimes, token: Token, now: nat)
    ensures match token
            case Refresh(c) => ExtractToken(t, token, now) == if now < (c.exp + t.leeway + 1) * SECOND then Some(c) else None
            case Access(_) => ExtractToken(t, token, now) == None
            case Foreign => ExtractToken(t, token, now) == None
  {
  }

  /** Without configuration an access token lasts a minute and a refresh token a year. */
  lemma DefaultLifetimes(signingMethod: string, leeway: nat)
    ensures AccessDuration(Lifetimes("", "", signingMethod, leeway)) == Success(Duration(60, 0))
    ensures RefreshDuration(Lifetimes("", "", signingMethod, leeway)) == Success(Duration(365 * 24 * 60 * 60, 0))
  {
    hide ParseCustomDuration, Decimal;
    DefaultTexts();
    ParseUnits(60, "");
    ParseUnits(1, "");
    EmptyReadsDefault("60s");
    EmptyReadsDefault("1y");
  }

  lemma DefaultTexts()
    ensures Decimal(60) + "s" == "60s" && Decimal(1) + "y" == "1y"
  {
    assert Decimal(6) == "6" && Decimal(60) == "60" && Decimal(1) == "1";
  }

  lemma EmptyReadsDefault(text: string)
    requires text != ""
    ensures ParseCustomDuration("", text) == ParseCustomDuration(text, "")
  {
  }

  lemma TimestampMonotone(a: nat, b: nat)
    requires a <= b
    ensures Timestamp(a) <= Timestamp(b)
  {
  }

  lemma TimestampAfter(now: nat, d: Duration)
    ensures Timestamp(After(now, d)) == Timestamp(now) + d.secs
    ensures Timestamp(After(now, d)) * SECOND <= now + d.secs * SECOND
  {
  }

  /**
   The order of the three deadlines of a sign-in. The row is written at `created` and the tokens are
   signed later, at `signed`: the access token runs out no later than the refresh token exactly when
   the configured durations are in that order, and the refresh token never before the whole second of
   the row's own expiry. The refresh token reads back, in Go's grammar, as the access lifetime.
   */
  lemma LifetimeOrder(t: Lifetimes, o: AuthorizeOptions, sessionId: string, created: nat, signed: nat)
    requires created <= signed
    requires SignTokenPair(t, o, sessionId, signed).Some?
    ensures var pair := SignTokenPair(t, o, sessionId, signed).value;
            var access, refresh := AccessDuration(t).value, RefreshDuration(t).value;
            && (pair.access.exp <= pair.refresh.exp <==> access.secs <= refresh.secs)
            && pair.refresh.exp >= Timestamp(After(created, refresh))
            && ReadGoDuration(pair.refresh.accessTokenLifetime) == Some(access.TotalNanos())
            && (ExtractToken(t, Token.Refresh(pair.refresh), signed) == Some(pair.refresh))
  {
    var access, refresh := AccessDuration(t).value, RefreshDuration(t).value;
    TimestampAfter(signed, access);
    TimestampAfter(signed, refresh);
    TimestampAfter(created, refresh);
    GoDurationRoundTrip(access);
  }
}
