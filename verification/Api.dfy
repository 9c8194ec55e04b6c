/**
 The API middleware (src/middleware.rs), which trusts a signed token without looking at the session, and
 what that means for a session that has ended.
 */
module Api {
  import opened Wrappers
  import opened Roles
  import opened Tokens
  import opened Sessions
  import opened SessionRuns
  import opened SessionHistory

  datatype ApiReply = Excluded | Through(token: Token) | Unauthenticated | InvalidRoles | Insufficient

  function Expiry(token: Token): Option<int> {
    match token
    case Access(claims) => Some(claims.exp)
    case Refresh(claims) => Some(claims.exp)
    case Foreign => None
  }

  /** Any claim set that this deployment signed and that has not run out, of whichever kind. */
  predicate Parses(t: Lifetimes, token: Token, now: nat) {
    Expiry(token).Some? && Expiry(token).value >= Timestamp(now) - t.leeway
  }

  /** The `roles` claim; a refresh token without roles does not carry one. */
  function RolesClaim(token: Token): Option<RoleList> {
    match token
    case Access(claims) => Some(claims.roles)
    case Refresh(claims) => if claims.roles == [] then None else Some(claims.roles)
    case Foreign => None
  }

  /** A bearer token in the header wins over the `access_token` query parameter. */
  method ApiOutcome(
    lower: Lower, t: Lifetimes, routeRoles: seq<string>, excluded: bool, header: Option<Token>, query: Option<Token>, now: nat)
    returns (reply: ApiReply)
    ensures excluded <==> reply.Excluded?
    ensures reply.Through? <==> !excluded && Admits(lower, t, routeRoles, PresentedToken(header, query), now)
    ensures reply.Through? ==> Some(reply.token) == PresentedToken(header, query)
    ensures reply.Unauthenticated? <==>
              !excluded && (PresentedToken(header, query).None? || !Parses(t, PresentedToken(header, query).value, now))
    ensures reply.InvalidRoles? <==>
              && !excluded && routeRoles != []
              && var token := PresentedToken(header, query);
                 token.Some? && Parses(t, token.value, now) && RolesClaim(token.value).None?
  {
    if excluded {
      return Excluded;
    }
    var presented := if header.Some? then header else query;
    if presented.None? || !Parses(t, presented.value, now) {
      return Unauthenticated;
    }
    var token := presented.value;
    if routeRoles != [] {
      var roles := RolesClaim(token);
      if roles.None? {
        return InvalidRoles;
      }
      DecideFormatted(lower, routeRoles, roles.value);
      var hasRole, _, _ := GetRole(lower, routeRoles, FormatRoles(roles.value));
      if !hasRole {
        return Insufficient;
      }
    }
    return Through(token);
  }

  /** A current token of this deployment, one of whose string grants names a role the route asks for. */
  predicate Admits(lower: Lower, t: Lifetimes, routeRoles: seq<string>, token: Option<Token>, now: nat) {
    && token.Some? && Parses(t, token.value, now)
    && (routeRoles != [] ==>
          && RolesClaim(token.value).Some?
          && exists u | u in Strings(RolesClaim(token.value).value) :: Matches(lower, routeRoles, u))
  }

  /**
   How long access tokens go on being served when their session has ended: one minted for it is admitted, in
   every run, for less than the access duration, the library's leeway and one second after the end, plus the
   time the minting request took; the end being its deadline or the moment it was first seen finished.
   */
  lemma ApiOutlivesSession(
    cfg: Config, steps: seq<Step>, m: Minted, i: nat, lower: Lower, routeRoles: seq<string>, now: nat)
    requires Canonical(cfg) && m in Run(cfg, steps).minted && i <= |steps|
    requires Admits(lower, cfg.lifetimes, routeRoles, Some(Token.Access(m.claims)), now)
    ensures AccessDuration(cfg.lifetimes).Success?
    ensures var s := StateAt(cfg, steps, i);
            var bound := (AccessDuration(cfg.lifetimes).value.secs + cfg.lifetimes.leeway + 1) * SECOND + Latency(m);
            && (m.live.key in s.sessions && s.sessions[m.live.key].expiresAt.Some? ==>
                  now < s.sessions[m.live.key].expiresAt.value + bound)
            && (Finished(Run(cfg, steps[..i]), m.live.key) ==> now < s.now + bound)
  {
    hide Canonical, Run, Live;
    BoundedRevocation(cfg, steps, m, i);
    assert Timestamp(now) <= m.claims.exp + cfg.lifetimes.leeway;
    assert now < (m.claims.exp + cfg.lifetimes.leeway + 1) * SECOND;
  }

  /** A foreign token is never admitted, an access token until its expiry and the leeway, by its roles. */
  lemma AccessTokenAdmitted(lower: Lower, t: Lifetimes, routeRoles: seq<string>, c: AccessClaims, now: nat)
    ensures !Admits(lower, t, routeRoles, Some(Foreign), now) && !Admits(lower, t, routeRoles, None, now)
    ensures Admits(lower, t, routeRoles, Some(Token.Access(c)), now) <==>
            && now < (c.exp + t.leeway + 1) * SECOND
            && (routeRoles != [] ==> exists u | u in Strings(c.roles) :: Matches(lower, routeRoles, u))
  {
    hide Matches;
    WholeSeconds(now, c.exp + t.leeway);
  }

  /**
   A refresh token is admitted as well, whatever became of its session: exactly until its own expiry, which is
   one refresh duration after its signing, and exactly if it carries a role that the route asks for.
   */
  lemma RefreshTokenAdmitted(
    cfg: Config, steps: seq<Step>, c: RefreshClaims, lower: Lower, routeRoles: seq<string>, now: nat)
    requires Canonical(cfg) && c in Run(cfg, steps).issued
    ensures RefreshDuration(cfg.lifetimes).Success? && c.iat * SECOND <= Run(cfg, steps).store.now
    ensures Admits(lower, cfg.lifetimes, routeRoles, Some(Token.Refresh(c)), now) <==>
            && now < (c.iat + RefreshDuration(cfg.lifetimes).value.secs + cfg.lifetimes.leeway + 1) * SECOND
            && (routeRoles != [] ==> exists u | u in Strings(c.roles) :: Matches(lower, routeRoles, u))
  {
    hide Canonical, Run, Matches;
    RunIssued(cfg, steps, c);
    assert Strings([]) == [];
    WholeSeconds(now, c.exp + cfg.lifetimes.leeway);
  }

  lemma WholeSeconds(now: nat, bound: int)
    ensures Timestamp(now) <= bound <==> now < (bound + 1) * SECOND
  {
  }

  /** So the API serves a session's refresh token after the session has ended. */
  lemma RefreshTokenOutlivesSession()
    ensures exists cfg: Config, steps: seq<Step>, c: RefreshClaims, lower: Lower ::
              && Canonical(cfg) && c in Run(cfg, steps).issued
              && Finished(Run(cfg, steps), c.sessionId)
              && Admits(lower, cfg.lifetimes, [], Some(Token.Refresh(c)), Run(cfg, steps).store.now)
  {
    hide Run, ProceedRequest, ArriveToken;
    var cfg := DemoConfig();
    var before, c := DemoIssue();
    RunTables(cfg, before);
    RunAppend(cfg, before, SoftDelete("s"));
    var steps := before + [SoftDelete("s")];
    var lower: Lower := s => s;
    assert Finished(Run(cfg, steps), c.sessionId);
    assert Admits(lower, cfg.lifetimes, [], Some(Token.Refresh(c)), Run(cfg, steps).store.now);
  }
}
